/** The wave shooter (frontend/src/pages/network_command_center.jsx): four
    waves of enemies in grid formation, a ship that moves in the lower half
    and shoots upwards, points per enemy type, and five lives. */
module WaveShooter {
  import opened Js
  import opened Seqs

  const GameWidth := 600.0
  const GameHeight := 700.0
  const PlayerWidth := 50.0
  const PlayerHeight := 40.0
  const PlayerSpeed := 6
  const BulletWidth := 6.0
  const BulletHeight := 16.0
  const BulletSpeed := 10.0
  const EnemyBulletSpeed := 5.0
  const EnemyWidth := 44.0
  const EnemyHeight := 36.0
  const PlayerLives := 5
  const ShootCooldown := 250
  const InvulnerableMs := 2000
  const WaveDelay := 1000

  // ---------------------------------------------------------------- enemy types and waves

  datatype EnemyType = Malware | Phishing | BadConnection | MaliciousAds
  {
    function Points(): (p: nat)
      ensures 100 <= p <= 250
    {
      match this
      case Malware => 100
      case Phishing => 150
      case BadConnection => 200
      case MaliciousAds => 250
    }
  }

  datatype Row = Row(etype: EnemyType, count: nat)

  /** `WAVES`: the rows of each wave, top row first. */
  const Waves: seq<seq<Row>> := [
    [Row(Malware, 8), Row(Malware, 8), Row(Malware, 8)],
    [Row(Phishing, 8), Row(Phishing, 8), Row(Malware, 8), Row(Malware, 8)],
    [Row(BadConnection, 8), Row(Phishing, 8), Row(Phishing, 8), Row(Malware, 8), Row(Malware, 8)],
    [Row(MaliciousAds, 8), Row(BadConnection, 8), Row(Malware, 8)]
  ]

  /** An enemy as far as the model follows it: the formation and AI timers are left out. */
  datatype Enemy = Enemy(id: int, x: real, y: real, etype: EnemyType, alive: bool, isDiving: bool)

  /** The number of enemies in the rows before row `r`: the first id of row `r`. */
  function RowStart(rows: seq<Row>, r: nat): nat
    requires r <= |rows|
  {
    if r == 0 then 0 else RowStart(rows, r - 1) + rows[r - 1].count
  }

  lemma {:induction false} RowStartMonotone(rows: seq<Row>, r: nat, k: nat)
    requires r <= k <= |rows|
    ensures RowStart(rows, r) <= RowStart(rows, k)
  {
    if r < k {
      RowStartMonotone(rows, r, k - 1);
    }
  }

  function EnemyX(count: nat, col: nat): real
    requires count > 0
  {
    var spacing := (GameWidth - 60.0) / count as real;
    30.0 + spacing / 2.0 + col as real * spacing - EnemyWidth / 2.0
  }

  function RowY(r: nat): real
  {
    50.0 + 44.0 * r as real
  }

  function RowEnemies(row: Row, r: nat, firstId: nat): (es: seq<Enemy>)
    ensures |es| == row.count
  {
    seq(row.count, c requires 0 <= c < row.count => Enemy(firstId + c, EnemyX(row.count, c), RowY(r), row.etype, true, false))
  }

  /** The enemies of the first `k` rows: numbered 0, 1, 2, … in order, all alive, none diving. */
  function Formation(rows: seq<Row>, k: nat): (es: seq<Enemy>)
    requires k <= |rows|
    ensures |es| == RowStart(rows, k)
    ensures forall i :: 0 <= i < |es| ==> es[i].id == i && es[i].alive && !es[i].isDiving
  {
    if k == 0 then [] else Formation(rows, k - 1) + RowEnemies(rows[k - 1], k - 1, RowStart(rows, k - 1))
  }

  /** `createWaveEnemies`: an index outside the waves gives no enemies. */
  function WaveEnemies(waveIndex: int): (es: seq<Enemy>)
    ensures waveIndex < 0 || waveIndex >= |Waves| ==> es == []
    ensures forall i :: 0 <= i < |es| ==> es[i].id == i && es[i].alive && !es[i].isDiving
  {
    if waveIndex < 0 || waveIndex >= |Waves| then [] else Formation(Waves[waveIndex], |Waves[waveIndex]|)
  }

  /** Column `c` of row `r` is the enemy numbered after all earlier rows,
      at the row's height and of the row's type. */
  lemma {:induction false} FormationLayout(rows: seq<Row>, k: nat, r: nat, c: nat)
    requires r < k <= |rows| && c < rows[r].count
    ensures RowStart(rows, r) + c < |Formation(rows, k)|
    ensures var e := Formation(rows, k)[RowStart(rows, r) + c];
            e.id == RowStart(rows, r) + c && e.y == RowY(r) && e.etype == rows[r].etype && e.x == EnemyX(rows[r].count, c)
  {
    RowStartMonotone(rows, r + 1, k);
    if r < k - 1 {
      FormationLayout(rows, k - 1, r, c);
    }
  }

  /** The four waves hold 24, 32, 40 and 24 enemies; any other index none. */
  lemma WaveSizes(waveIndex: int)
    ensures |WaveEnemies(waveIndex)| == if waveIndex == 0 || waveIndex == 3 then 24
                                        else if waveIndex == 1 then 32
                                        else if waveIndex == 2 then 40
                                        else 0
  {
    if 0 <= waveIndex < |Waves| {
      var rows := Waves[waveIndex];
      assert RowStart(rows, 1) == 8;
      assert RowStart(rows, 2) == 16;
      assert RowStart(rows, 3) == 24;
      if |rows| > 3 {
        assert RowStart(rows, 4) == 32;
      }
    }
  }

  /** `createWaveEnemies`, with its running id counter. */
  method CreateWaveEnemies(waveIndex: int) returns (enemies: seq<Enemy>)
    ensures enemies == WaveEnemies(waveIndex)
  {
    if waveIndex < 0 || waveIndex >= |Waves| {
      return [];
    }
    var rows := Waves[waveIndex];
    enemies := [];
    var id := 0;
    for r := 0 to |rows|
      invariant enemies == Formation(rows, r) && id == RowStart(rows, r)
    {
      var count := rows[r].count;
      for col := 0 to count
        invariant enemies == Formation(rows, r) + RowEnemies(rows[r], r, RowStart(rows, r))[..col]
        invariant id == RowStart(rows, r) + col
      {
        enemies := enemies + [Enemy(id, EnemyX(count, col), RowY(r), rows[r].etype, true, false)];
        id := id + 1;
      }
    }
  }

  // ---------------------------------------------------------------- movement and shots

  datatype Keys = Keys(left: bool, right: bool, up: bool, down: bool, shoot: bool)

  /** The ship's area: GAME_WIDTH - PLAYER_WIDTH, GAME_HEIGHT / 2 and
      GAME_HEIGHT - PLAYER_HEIGHT - 20. Every coordinate of the ship is whole. */
  const MaxX := 550
  const MinY := 350
  const MaxY := 640

  /** A direction counts only when its opposite is not held; the result is
      kept inside [0, 550]. */
  function MoveX(x: int, k: Keys): (nx: int)
    ensures 0 <= nx <= MaxX
    ensures k.left == k.right && 0 <= x <= MaxX ==> nx == x
    ensures k.left && !k.right && PlayerSpeed <= x <= MaxX ==> nx == x - PlayerSpeed
    ensures k.right && !k.left && 0 <= x <= MaxX - PlayerSpeed ==> nx == x + PlayerSpeed
  {
    var m := x + (if k.left && !k.right then -PlayerSpeed else 0) + (if k.right && !k.left then PlayerSpeed else 0);
    MaxI(0, MinI(m, MaxX))
  }

  /** The same in height, kept inside [350, 640]. */
  function MoveY(y: int, k: Keys): (ny: int)
    ensures MinY <= ny <= MaxY
    ensures k.up == k.down && MinY <= y <= MaxY ==> ny == y
    ensures k.up && !k.down && MinY + PlayerSpeed <= y <= MaxY ==> ny == y - PlayerSpeed
    ensures k.down && !k.up && MinY <= y <= MaxY - PlayerSpeed ==> ny == y + PlayerSpeed
  {
    var m := y + (if k.up && !k.down then -PlayerSpeed else 0) + (if k.down && !k.up then PlayerSpeed else 0);
    MaxI(MinY, MinI(m, MaxY))
  }

  datatype Shot = Shot(x: real, y: real)

  /** Every shot moves up 10; those at or above the top edge are gone. */
  function AdvanceShots(bs: seq<Shot>): (r: seq<Shot>)
    ensures |r| <= |bs|
    ensures forall k :: 0 <= k < |r| ==> r[k].y > 0.0 && r[k].(y := r[k].y + BulletSpeed) in bs
  {
    Filter(Map(bs, (b: Shot) => b.(y := b.y - BulletSpeed)), (b: Shot) => b.y > 0.0)
  }

  /** A shot still below the top edge after its move is kept, moved. */
  lemma AdvanceShotsKeeps(bs: seq<Shot>, b: Shot)
    requires b in bs && b.y > BulletSpeed
    ensures b.(y := b.y - BulletSpeed) in AdvanceShots(bs)
  {
    var moved := Map(bs, (b: Shot) => b.(y := b.y - BulletSpeed));
    var k :| 0 <= k < |bs| && bs[k] == b;
    assert moved[k] == b.(y := b.y - BulletSpeed);
    FilterMembers(moved, (b: Shot) => b.y > 0.0, moved[k]);
  }

  datatype EnemyShot = EnemyShot(x: real, y: real, vx: real)

  predicate OnScreen(b: EnemyShot)
  {
    b.y < GameHeight && b.x > 0.0 && b.x < GameWidth
  }

  /** One move of an enemy shot: 5 down and its own sideways speed across
      (0 for a shot without one). */
  function EnemyShotStep(b: EnemyShot): EnemyShot
  {
    b.(y := b.y + EnemyBulletSpeed, x := b.x + b.vx)
  }

  /** Every enemy shot moves; those that leave the screen are gone. */
  function AdvanceEnemyShots(bs: seq<EnemyShot>): (r: seq<EnemyShot>)
    ensures |r| <= |bs|
    ensures forall k :: 0 <= k < |r| ==>
              OnScreen(r[k]) && exists i :: 0 <= i < |bs| && r[k] == EnemyShotStep(bs[i])
  {
    var moved := Map(bs, EnemyShotStep);
    assert forall k :: 0 <= k < |moved| ==> moved[k] == EnemyShotStep(bs[k]);
    Filter(moved, OnScreen)
  }

  /** A shot is kept, moved, exactly when its move leaves it on screen. */
  lemma AdvanceEnemyShotsKeeps(bs: seq<EnemyShot>, i: nat)
    requires i < |bs|
    ensures EnemyShotStep(bs[i]) in AdvanceEnemyShots(bs) <==> OnScreen(EnemyShotStep(bs[i]))
  {
    var moved := Map(bs, EnemyShotStep);
    assert moved[i] == EnemyShotStep(bs[i]);
    FilterMembers(moved, OnScreen, moved[i]);
  }

  /** The kept shots keep their order: advancing a joined list joins the parts. */
  lemma AdvanceEnemyShotsAppend(a: seq<EnemyShot>, b: seq<EnemyShot>)
    ensures AdvanceEnemyShots(a + b) == AdvanceEnemyShots(a) + AdvanceEnemyShots(b)
  {
    MapAppend(a, b, EnemyShotStep);
    FilterAppend(Map(a, EnemyShotStep), Map(b, EnemyShotStep), OnScreen);
  }

  /** A laser hangs below the enemy `sourceId` for `duration` ms from `createdAt`. */
  datatype Laser = Laser(x: real, y: real, sourceId: int, duration: int, createdAt: int)

  /** The first living enemy with that id. */
  function FindAlive(es: seq<Enemy>, id: int): (r: Option<Enemy>)
    ensures r.Some? ==> r.value in es && r.value.id == id && r.value.alive
    ensures r.None? ==> forall k :: 0 <= k < |es| ==> !(es[k].id == id && es[k].alive)
  {
    if es == [] then None
    else if es[0].id == id && es[0].alive then Some(es[0])
    else FindAlive(es[1..], id)
  }

  /** A laser hangs under its source enemy while that enemy lives, and stays
      where it was otherwise; its source and timing never change. */
  function Follow(l: Laser, es: seq<Enemy>): (r: Laser)
    ensures r.sourceId == l.sourceId && r.duration == l.duration && r.createdAt == l.createdAt
    ensures FindAlive(es, l.sourceId).None? ==> r == l
    ensures FindAlive(es, l.sourceId).Some? ==>
              var e := FindAlive(es, l.sourceId).value;
              r.x == e.x + EnemyWidth / 2.0 - 4.0 && r.y == e.y + EnemyHeight
  {
    match FindAlive(es, l.sourceId)
    case Some(e) => l.(x := e.x + EnemyWidth / 2.0 - 4.0, y := e.y + EnemyHeight)
    case None => l
  }

  predicate Live(l: Laser, now: int)
  {
    now - l.createdAt < l.duration
  }

  /** Expired lasers go; the rest follow their enemy while it lives. */
  function AdvanceLasers(ls: seq<Laser>, es: seq<Enemy>, now: int): (r: seq<Laser>)
    ensures |r| <= |ls|
    ensures forall k :: 0 <= k < |r| ==> exists i :: 0 <= i < |ls| && Live(ls[i], now) && r[k] == Follow(ls[i], es)
  {
    var live := Filter(ls, (l: Laser) => Live(l, now));
    var r := Map(live, (l: Laser) => Follow(l, es));
    assert forall k :: 0 <= k < |r| ==> live[k] in ls && Live(live[k], now) && r[k] == Follow(live[k], es);
    r
  }

  /** Every live laser stays, following its enemy. */
  lemma AdvanceLasersKeeps(ls: seq<Laser>, es: seq<Enemy>, now: int, i: nat)
    requires i < |ls| && Live(ls[i], now)
    ensures Follow(ls[i], es) in AdvanceLasers(ls, es, now)
  {
    var live := Filter(ls, (l: Laser) => Live(l, now));
    FilterMembers(ls, (l: Laser) => Live(l, now), ls[i]);
    var k :| 0 <= k < |live| && live[k] == ls[i];
    assert Map(live, (l: Laser) => Follow(l, es))[k] == Follow(ls[i], es);
  }

  /** The kept lasers keep their order: advancing a joined list joins the parts. */
  lemma AdvanceLasersAppend(a: seq<Laser>, b: seq<Laser>, es: seq<Enemy>, now: int)
    ensures AdvanceLasers(a + b, es, now) == AdvanceLasers(a, es, now) + AdvanceLasers(b, es, now)
  {
    FilterAppend(a, b, (l: Laser) => Live(l, now));
    MapAppend(Filter(a, (l: Laser) => Live(l, now)), Filter(b, (l: Laser) => Live(l, now)), (l: Laser) => Follow(l, es));
  }

  // ---------------------------------------------------------------- shots against enemies

  predicate Strikes(b: Shot, e: Enemy)
  {
    b.x < e.x + EnemyWidth && b.x + BulletWidth > e.x && b.y < e.y + EnemyHeight && b.y + BulletHeight > e.y
  }

  /** The inner loop for shot `b` over the first `j` enemies: every living
      enemy it touches dies and pays its points. */
  function StrikeUpTo(b: Shot, es: seq<Enemy>, j: nat): (r: (seq<Enemy>, nat, bool))
    requires j <= |es|
    ensures |r.0| == |es|
    ensures forall k :: j <= k < |es| ==> r.0[k] == es[k]
  {
    if j == 0 then (es, 0, false)
    else
      var prev := StrikeUpTo(b, es, j - 1);
      var e := es[j - 1];
      if e.alive && Strikes(b, e) then (prev.0[j - 1 := e.(alive := false)], prev.1 + e.etype.Points(), true)
      else prev
  }

  /** The outer loop over the first `i` shots: the shot slots (None once a
      shot has hit), the enemies, and the points gained. */
  function ResolveUpTo(bs: seq<Shot>, es: seq<Enemy>, i: nat): (r: (seq<Option<Shot>>, seq<Enemy>, nat))
    requires i <= |bs|
    ensures |r.0| == |bs| && |r.1| == |es|
  {
    if i == 0 then (Map(bs, (b: Shot) => Some(b)), es, 0)
    else
      var prev := ResolveUpTo(bs, es, i - 1);
      var strike := StrikeUpTo(bs[i - 1], prev.1, |prev.1|);
      (if strike.2 then prev.0[i - 1 := None] else prev.0, strike.0, prev.2 + strike.1)
  }

  /** The shots still present, in order. */
  function Present<T>(slots: seq<Option<T>>): (r: seq<T>)
    ensures |r| <= |slots|
  {
    if slots == [] then [] else (if slots[0].Some? then [slots[0].value] else []) + Present(slots[1..])
  }

  /** `es2` differs from `es` only in enemies that were alive and are now dead. */
  ghost predicate OnlyKills(es: seq<Enemy>, es2: seq<Enemy>)
  {
    |es2| == |es| && forall k :: 0 <= k < |es| ==> es2[k] == es[k] || (es[k].alive && es2[k] == es[k].(alive := false))
  }

  /** The points of the enemies among the first `n` that `es2` has killed. */
  function KilledPoints(es: seq<Enemy>, es2: seq<Enemy>, n: nat): nat
    requires |es2| == |es| && n <= |es|
  {
    if n == 0 then 0
    else KilledPoints(es, es2, n - 1) + (if es[n - 1].alive && !es2[n - 1].alive then es[n - 1].etype.Points() else 0)
  }

  lemma {:induction false} KilledPointsNone(es: seq<Enemy>, n: nat)
    requires n <= |es|
    ensures KilledPoints(es, es, n) == 0
  {
    if n > 0 {
      KilledPointsNone(es, n - 1);
    }
  }

  /** Killing one more living enemy adds exactly its points. */
  lemma {:induction false} KilledPointsKill(es: seq<Enemy>, es2: seq<Enemy>, j: nat, n: nat)
    requires |es2| == |es| && j < |es| && n <= |es|
    requires es2[j] == es[j] && es[j].alive
    ensures KilledPoints(es, es2[j := es[j].(alive := false)], n)
            == KilledPoints(es, es2, n) + (if j < n then es[j].etype.Points() else 0)
  {
    if n > 0 {
      KilledPointsKill(es, es2, j, n - 1);
    }
  }

  /** Two rounds of kills add up, and no enemy pays twice. */
  lemma {:induction false} KilledPointsChain(es: seq<Enemy>, es1: seq<Enemy>, es2: seq<Enemy>, n: nat)
    requires OnlyKills(es, es1) && OnlyKills(es1, es2) && n <= |es|
    ensures KilledPoints(es, es2, n) == KilledPoints(es, es1, n) + KilledPoints(es1, es2, n)
  {
    if n > 0 {
      KilledPointsChain(es, es1, es2, n - 1);
    }
  }

  lemma OnlyKillsChain(es: seq<Enemy>, es1: seq<Enemy>, es2: seq<Enemy>)
    requires OnlyKills(es, es1) && OnlyKills(es1, es2)
    ensures OnlyKills(es, es2)
  {
  }

  /** One shot kills every living enemy it touches among the first `j`, only
      those, and the points it earns are exactly theirs. */
  lemma {:induction false} StrikeFacts(b: Shot, es: seq<Enemy>, j: nat)
    requires j <= |es|
    ensures var r := StrikeUpTo(b, es, j);
            && OnlyKills(es, r.0)
            && r.1 == KilledPoints(es, r.0, |es|)
            && (r.2 <==> r.1 > 0)
            && (forall k :: j <= k < |es| ==> r.0[k] == es[k])
            && (forall k :: 0 <= k < j ==> (!r.0[k].alive && es[k].alive <==> es[k].alive && Strikes(b, es[k])))
  {
    if j == 0 {
      KilledPointsNone(es, |es|);
    } else {
      StrikeFacts(b, es, j - 1);
      var prev := StrikeUpTo(b, es, j - 1);
      var e := es[j - 1];
      if e.alive && Strikes(b, e) {
        KilledPointsKill(es, prev.0, j - 1, |es|);
      }
    }
  }

  /** The collision handler: only living enemies die, each pays its points
      once (a dead enemy is never hit again), and a shot disappears exactly
      when it has hit. */
  lemma {:induction false} ResolveFacts(bs: seq<Shot>, es: seq<Enemy>, i: nat)
    requires i <= |bs|
    ensures var r := ResolveUpTo(bs, es, i);
            && OnlyKills(es, r.1)
            && r.2 == KilledPoints(es, r.1, |es|)
            && (forall k :: 0 <= k < |bs| ==> r.0[k] == Some(bs[k]) || (k < i && r.0[k] == None))
            && (r.2 == 0 <==> forall k :: 0 <= k < |bs| ==> r.0[k] == Some(bs[k]))
  {
    if i == 0 {
      KilledPointsNone(es, |es|);
    } else {
      ResolveFacts(bs, es, i - 1);
      var prev := ResolveUpTo(bs, es, i - 1);
      StrikeFacts(bs[i - 1], prev.1, |prev.1|);
      var strike := StrikeUpTo(bs[i - 1], prev.1, |prev.1|);
      KilledPointsChain(es, prev.1, strike.0, |es|);
      var r := ResolveUpTo(bs, es, i);
      if strike.2 {
        assert r.0[i - 1] != Some(bs[i - 1]);
      }
    }
  }

  /** With no shot touching a living enemy the handler changes nothing. */
  lemma {:induction false} NoContactNoChange(bs: seq<Shot>, es: seq<Enemy>, i: nat)
    requires i <= |bs|
    requires forall n, k :: 0 <= n < |bs| && 0 <= k < |es| && es[k].alive ==> !Strikes(bs[n], es[k])
    ensures ResolveUpTo(bs, es, i) == (Map(bs, (b: Shot) => Some(b)), es, 0)
  {
    if i > 0 {
      NoContactNoChange(bs, es, i - 1);
      StrikeNone(bs[i - 1], es, |es|);
    }
  }

  lemma {:induction false} StrikeNone(b: Shot, es: seq<Enemy>, j: nat)
    requires j <= |es|
    requires forall k :: 0 <= k < |es| && es[k].alive ==> !Strikes(b, es[k])
    ensures StrikeUpTo(b, es, j) == (es, 0, false)
  {
    if j > 0 {
      StrikeNone(b, es, j - 1);
    }
  }

  /** The nested loops of the collision handler, overwriting slots of the
      copied shot and enemy lists. */
  method ResolveShots(bs: seq<Shot>, es: seq<Enemy>) returns (slots: seq<Option<Shot>>, updated: seq<Enemy>, gained: nat)
    ensures (slots, updated, gained) == ResolveUpTo(bs, es, |bs|)
  {
    updated := es;
    slots := Map(bs, (b: Shot) => Some(b));
    gained := 0;
    for i := 0 to |slots|
      invariant |slots| == |bs|
      invariant (slots, updated, gained) == ResolveUpTo(bs, es, i)
      invariant forall k :: i <= k < |bs| ==> slots[k] == Some(bs[k])
    {
      var bullet := slots[i];
      if bullet.None? {
        continue;
      }
      ghost var before := updated;
      var hit := false;
      for j := 0 to |updated|
        invariant |updated| == |before|
        invariant (updated, gained - ResolveUpTo(bs, es, i).2, hit) == StrikeUpTo(bs[i], before, j)
        invariant gained >= ResolveUpTo(bs, es, i).2
        invariant slots == (if hit then ResolveUpTo(bs, es, i).0[i := None] else ResolveUpTo(bs, es, i).0)
      {
        var enemy := updated[j];
        if !enemy.alive {
          continue;
        }
        if Strikes(bullet.value, enemy) {
          updated := updated[j := enemy.(alive := false)];
          slots := slots[i := None];
          gained := gained + enemy.etype.Points();
          hit := true;
        }
      }
      assert forall k :: i + 1 <= k < |bs| ==> slots[k] == Some(bs[k]);
    }
  }

  function AliveCount(es: seq<Enemy>): (n: nat)
    ensures n == 0 <==> forall k :: 0 <= k < |es| ==> !es[k].alive
  {
    if es == [] then 0 else (if es[0].alive then 1 else 0) + AliveCount(es[1..])
  }

  // ---------------------------------------------------------------- hits on the player

  predicate ShotHitsPlayer(b: EnemyShot, px: real, py: real)
  {
    b.x < px + PlayerWidth && b.x + BulletWidth > px && b.y < py + PlayerHeight && b.y + BulletHeight > py
  }

  /** The enemy shots that missed the player at (px, py). */
  function Missed(bs: seq<EnemyShot>, px: real, py: real): (r: seq<EnemyShot>)
    ensures forall k :: 0 <= k < |r| ==> !ShotHitsPlayer(r[k], px, py) && r[k] in bs
  {
    Filter(bs, (b: EnemyShot) => !ShotHitsPlayer(b, px, py))
  }

  /** However many enemy shots hit at once, they all go; none that hit stays. */
  lemma MissedFacts(bs: seq<EnemyShot>, px: real, py: real)
    ensures (exists k :: 0 <= k < |bs| && ShotHitsPlayer(bs[k], px, py)) <==> |Missed(bs, px, py)| < |bs|
    ensures (forall k :: 0 <= k < |bs| ==> !ShotHitsPlayer(bs[k], px, py)) ==> Missed(bs, px, py) == bs
  {
    var p := (b: EnemyShot) => !ShotHitsPlayer(b, px, py);
    if exists k :: 0 <= k < |bs| && ShotHitsPlayer(bs[k], px, py) {
      var k :| 0 <= k < |bs| && ShotHitsPlayer(bs[k], px, py);
      FilterDrops(bs, p, k);
    } else {
      FilterAll(bs, p);
    }
  }

  predicate LaserHitsPlayer(l: Laser, px: real, py: real)
  {
    px < l.x + 8.0 && px + PlayerWidth > l.x && py < l.y + (GameHeight - l.y) && py + PlayerHeight > l.y
  }

  predicate EnemyHitsPlayer(e: Enemy, px: real, py: real)
  {
    e.alive && px < e.x + EnemyWidth && px + PlayerWidth > e.x && py < e.y + EnemyHeight && py + PlayerHeight > e.y
  }

  predicate AnyLaserHit(ls: seq<Laser>, px: real, py: real)
  {
    exists k :: 0 <= k < |ls| && LaserHitsPlayer(ls[k], px, py)
  }

  predicate AnyEnemyHit(es: seq<Enemy>, px: real, py: real)
  {
    exists k :: 0 <= k < |es| && EnemyHitsPlayer(es[k], px, py)
  }

  function Count(b: bool): nat
  {
    if b then 1 else 0
  }

  /** The lives one tick costs: one for enemy shots (however many hit), one
      for a laser, one for touching an enemy; none while invulnerable. */
  function Hits(invulnerable: bool, ebs: seq<EnemyShot>, ls: seq<Laser>, es: seq<Enemy>, px: real, py: real): (n: nat)
    ensures n <= 3
    ensures invulnerable ==> n == 0
    ensures !invulnerable ==> n == Count(|Missed(ebs, px, py)| < |ebs|) + Count(AnyLaserHit(ls, px, py)) + Count(AnyEnemyHit(es, px, py))
  {
    if invulnerable then 0
    else Count(|Missed(ebs, px, py)| < |ebs|) + Count(AnyLaserHit(ls, px, py)) + Count(AnyEnemyHit(es, px, py))
  }

  /** A shot leaves the middle of the ship's nose, 10 above it. */
  function NewShot(px: int, py: int): Shot
  {
    Shot((px as real) + PlayerWidth / 2.0 - BulletWidth / 2.0, (py - 10) as real)
  }

  /** The held shoot key fires once the cooldown has passed. */
  predicate Fires(k: Keys, lastShot: int, now: int)
  {
    k.shoot && now - lastShot > ShootCooldown
  }

  /** The player's shots after this tick's shot and move, before collisions. */
  function ShotsAfterMove(bs: seq<Shot>, k: Keys, lastShot: int, px: int, py: int, now: int): seq<Shot>
  {
    if Fires(k, lastShot, now) then AdvanceShots(bs + [NewShot(px, py)])
    else AdvanceShots(bs)
  }

  // ---------------------------------------------------------------- the page

  datatype GameState = Playing | Win | Lose

  /** A pending `setTimeout` callback: the next wave (with the wave number
      seen when it was set), or the end of an invulnerability. */
  datatype Timer = NextWave(due: int, wave: int) | InvulnerabilityEnds(due: int)

  /** GAME_WIDTH / 2 - PLAYER_WIDTH / 2 and GAME_HEIGHT - 80. */
  const StartX := 275
  const StartY := 620

  class CommandCenter {
    var playerX: int
    var playerY: int
    var bullets: seq<Shot>
    var enemyBullets: seq<EnemyShot>
    var lasers: seq<Laser>
    var enemies: seq<Enemy>
    var keys: Keys
    var gameState: GameState
    var score: int
    var lives: int
    var currentWave: int
    var isInvulnerable: bool
    var waveTransition: bool
    var lastShot: int
    var timers: seq<Timer>

    /** The ship stays in its area, the wave number in 1..4, the score is
        never negative, and the game is lost exactly when no life is left. */
    ghost predicate Valid()
      reads this
    {
      Bounded() && (gameState == Lose <==> lives <= 0)
    }

    ghost predicate Bounded()
      reads this
    {
      && 0 <= playerX <= MaxX && MinY <= playerY <= MaxY
      && 1 <= currentWave <= |Waves|
      && score >= 0
      && lives <= PlayerLives
      && (forall k :: 0 <= k < |timers| && timers[k].NextWave? ==> 1 <= timers[k].wave < |Waves|)
    }

    constructor ()
      ensures Valid()
      ensures playerX == StartX && playerY == StartY && bullets == [] && enemyBullets == [] && lasers == []
      ensures enemies == WaveEnemies(0) && keys == Keys(false, false, false, false, false)
      ensures gameState == Playing && score == 0 && lives == PlayerLives && currentWave == 1
      ensures !isInvulnerable && !waveTransition && lastShot == 0 && timers == []
    {
      playerX, playerY := StartX, StartY;
      bullets, enemyBullets, lasers := [], [], [];
      enemies := WaveEnemies(0);
      keys := Keys(false, false, false, false, false);
      gameState := Playing;
      score := 0;
      lives := PlayerLives;
      currentWave := 1;
      isInvulnerable := false;
      waveTransition := false;
      lastShot := 0;
      timers := [];
    }

    /** The keydown listener: only while playing, the first matching key group is set. */
    method KeyDown(key: string)
      requires Valid()
      modifies this`keys
      ensures Valid()
      ensures old(gameState) != Playing ==> keys == old(keys)
      ensures old(gameState) == Playing ==> keys == PressKey(old(keys), key, true)
    {
      if gameState != Playing {
        return;
      }
      keys := PressKey(keys, key, true);
    }

    /** The keyup listener, in every state. */
    method KeyUp(key: string)
      requires Valid()
      modifies this`keys
      ensures Valid()
      ensures keys == PressKey(old(keys), key, false)
    {
      keys := PressKey(keys, key, false);
    }

    /** What the enemy AI fires this tick: appended to the enemy shots and lasers. */
    method EnemyFire(shots: seq<EnemyShot>, beams: seq<Laser>)
      requires Valid()
      modifies this`enemyBullets, this`lasers
      ensures Valid()
      ensures enemyBullets == old(enemyBullets) + shots && lasers == old(lasers) + beams
    {
      enemyBullets := enemyBullets + shots;
      lasers := lasers + beams;
    }

    /** One 16 ms tick while playing, in the loop's order: the ship moves
        and fires and everything in flight moves on (`MoveAndFire`), the
        collision handler kills enemies, scores and checks the wave
        (`Collisions`), and then, unless invulnerable, each kind of hit costs
        a life (`PlayerHits`), checked against the ship's position, lasers and
        enemies from before the tick, as the loop reads them through refs of
        the previous render. Each phase states its own effect; the enemy AI's
        own movement is left out. */
    method Tick(now: int)
      requires Valid() && gameState == Playing
      modifies this`playerX, this`playerY, this`lastShot, this`bullets, this`enemyBullets, this`lasers
      modifies this`enemies, this`score, this`waveTransition, this`timers, this`gameState
      modifies this`lives, this`isInvulnerable
      ensures Valid()
      ensures playerX == MoveX(old(playerX), old(keys)) && playerY == MoveY(old(playerY), old(keys))
      ensures lastShot == (if Fires(old(keys), old(lastShot), now) then now else old(lastShot))
      ensures lasers == AdvanceLasers(old(lasers), old(enemies), now)
      ensures var shot := ShotsAfterMove(old(bullets), old(keys), old(lastShot), old(playerX), old(playerY), now);
              var r := ResolveUpTo(shot, old(enemies), |shot|);
              bullets == Present(r.0) && enemies == r.1 && score == old(score) + r.2
      ensures var moved := AdvanceEnemyShots(old(enemyBullets));
              var hits := Hits(old(isInvulnerable), moved, old(lasers), old(enemies), old(playerX) as real, old(playerY) as real);
              && lives == old(lives) - hits
              && isInvulnerable == (old(isInvulnerable) || hits > 0)
              && enemyBullets == (if old(isInvulnerable) then moved else Missed(moved, old(playerX) as real, old(playerY) as real))
    {
      var px, py := playerX as real, playerY as real;
      var oldEnemies, oldLasers := enemies, lasers;
      MoveAndFire(now);
      HitPhase(now, px, py, oldLasers, oldEnemies);
    }

    /** The second half of a tick: the collision handler, then the hits on
        the player. */
    method HitPhase(now: int, px: real, py: real, oldLasers: seq<Laser>, oldEnemies: seq<Enemy>)
      requires Valid() && gameState == Playing
      modifies this`bullets, this`enemies, this`score, this`waveTransition, this`timers, this`gameState
      modifies this`enemyBullets, this`lives, this`isInvulnerable
      ensures Valid()
      ensures var r := ResolveUpTo(old(bullets), old(enemies), |old(bullets)|);
              bullets == Present(r.0) && enemies == r.1 && score == old(score) + r.2
      ensures var hits := Hits(old(isInvulnerable), old(enemyBullets), oldLasers, oldEnemies, px, py);
              && lives == old(lives) - hits
              && isInvulnerable == (old(isInvulnerable) || hits > 0)
              && enemyBullets == (if old(isInvulnerable) then old(enemyBullets) else Missed(old(enemyBullets), px, py))
      ensures var r := ResolveUpTo(old(bullets), old(enemies), |old(bullets)|);
              var cleared := AliveCount(r.1) == 0 && !old(waveTransition);
              var hits := Hits(old(isInvulnerable), old(enemyBullets), oldLasers, oldEnemies, px, py);
              && waveTransition == (old(waveTransition) || cleared)
              && timers == old(timers)
                           + (if cleared && currentWave < |Waves| then [NextWave(now + WaveDelay, currentWave)] else [])
                           + seq(hits, _ => InvulnerabilityEnds(now + InvulnerableMs))
              && gameState == (if lives <= 0 then Lose else if cleared && currentWave >= |Waves| then Win else Playing)
    {
      Collisions(now);
      PlayerHits(now, px, py, oldLasers, oldEnemies);
    }

    /** The first half of a tick: the ship moves and fires, and every shot
        and laser moves on. */
    method MoveAndFire(now: int)
      requires Valid()
      modifies this`playerX, this`playerY, this`lastShot, this`bullets, this`enemyBullets, this`lasers
      ensures Valid()
      ensures playerX == MoveX(old(playerX), old(keys)) && playerY == MoveY(old(playerY), old(keys))
      ensures lastShot == (if Fires(old(keys), old(lastShot), now) then now else old(lastShot))
      ensures bullets == ShotsAfterMove(old(bullets), old(keys), old(lastShot), old(playerX), old(playerY), now)
      ensures enemyBullets == AdvanceEnemyShots(old(enemyBullets))
      ensures lasers == AdvanceLasers(old(lasers), enemies, now)
    {
      MoveShip(now);
      enemyBullets, lasers := AdvanceEnemyShots(enemyBullets), AdvanceLasers(lasers, enemies, now);
    }

    /** The ship moves by the held keys, fires once the cooldown has passed,
        and its shots move up. */
    method MoveShip(now: int)
      requires Valid()
      modifies this`playerX, this`playerY, this`lastShot, this`bullets
      ensures Valid()
      ensures playerX == MoveX(old(playerX), old(keys)) && playerY == MoveY(old(playerY), old(keys))
      ensures lastShot == (if Fires(old(keys), old(lastShot), now) then now else old(lastShot))
      ensures bullets == ShotsAfterMove(old(bullets), old(keys), old(lastShot), old(playerX), old(playerY), now)
    {
      var px, py := playerX, playerY;
      var shots := bullets;
      if keys.shoot && now - lastShot > ShootCooldown {
        lastShot := now;
        shots := shots + [NewShot(px, py)];
      }
      playerX, playerY, bullets := MoveX(px, keys), MoveY(py, keys), AdvanceShots(shots);
    }

    /** The collision handler and the wave check. */
    method Collisions(now: int)
      requires Valid() && gameState == Playing
      modifies this`bullets, this`enemies, this`score, this`waveTransition, this`timers, this`gameState
      ensures var r := ResolveUpTo(old(bullets), old(enemies), |old(bullets)|);
              && bullets == Present(r.0) && enemies == r.1 && score == old(score) + r.2
              && var cleared := AliveCount(r.1) == 0 && !old(waveTransition);
                 && waveTransition == (old(waveTransition) || cleared)
                 && timers == old(timers) + (if cleared && currentWave < |Waves| then [NextWave(now + WaveDelay, currentWave)] else [])
                 && gameState == (if cleared && currentWave >= |Waves| then Win else Playing)
      ensures Valid()
    {
      var slots, updated, gained := ResolveShots(bullets, enemies);
      enemies, score := updated, score + gained;
      if AliveCount(updated) == 0 && !waveTransition {
        waveTransition := true;
        if currentWave < |Waves| {
          timers := timers + [NextWave(now + WaveDelay, currentWave)];
        } else {
          gameState := Win;
        }
      }
      bullets := Present(slots);
    }

    /** The hit checks against the player, taken with the closure's
        invulnerability, lasers and enemies; each kind of hit costs one life. */
    method PlayerHits(now: int, px: real, py: real, oldLasers: seq<Laser>, oldEnemies: seq<Enemy>)
      requires Valid()
      modifies this`enemyBullets, this`lives, this`gameState, this`isInvulnerable, this`timers
      ensures Valid()
      ensures var hits := Hits(old(isInvulnerable), old(enemyBullets), oldLasers, oldEnemies, px, py);
              && lives == old(lives) - hits
              && gameState == (if lives <= 0 then Lose else old(gameState))
              && isInvulnerable == (old(isInvulnerable) || hits > 0)
              && timers == old(timers) + seq(hits, _ => InvulnerabilityEnds(now + InvulnerableMs))
      ensures enemyBullets == (if old(isInvulnerable) then old(enemyBullets) else Missed(old(enemyBullets), px, py))
    {
      if isInvulnerable {
        return;
      }
      var filtered := Missed(enemyBullets, px, py);
      var hit := |filtered| < |enemyBullets|;
      enemyBullets := filtered;
      var lost := 0;
      if hit {
        lost := lost + 1;
        LoseLife(now);
      }
      if AnyLaserHit(oldLasers, px, py) {
        lost := lost + 1;
        LoseLife(now);
      }
      if AnyEnemyHit(oldEnemies, px, py) {
        lost := lost + 1;
        LoseLife(now);
      }
      assert lost == Hits(false, old(enemyBullets), oldLasers, oldEnemies, px, py);
      assert timers == old(timers) + seq(lost, _ => InvulnerabilityEnds(now + InvulnerableMs));
    }

    /** `setLives(prev => prev - 1)`, losing at zero, then invulnerability and its timer. */
    method LoseLife(now: int)
      requires Bounded() && (gameState == Lose ==> lives <= 0)
      modifies this`lives, this`gameState, this`isInvulnerable, this`timers
      ensures Valid()
      ensures lives == old(lives) - 1 && isInvulnerable
      ensures gameState == (if lives <= 0 then Lose else old(gameState))
      ensures timers == old(timers) + [InvulnerabilityEnds(now + InvulnerableMs)]
    {
      lives := lives - 1;
      if lives <= 0 {
        gameState := Lose;
      }
      isInvulnerable, timers := true, timers + [InvulnerabilityEnds(now + InvulnerableMs)];
    }

    /** A timer callback: the chosen pending timer `k` runs. The next wave
        takes the wave number seen when the timer was set. */
    method FireTimer(k: nat)
      requires Valid() && k < |timers|
      modifies this`timers, this`currentWave, this`enemies, this`waveTransition, this`isInvulnerable
      ensures Valid()
      ensures timers == old(timers)[..k] + old(timers)[k + 1..]
      ensures match old(timers)[k]
              case NextWave(_, w) =>
                currentWave == w + 1 && enemies == WaveEnemies(w) && !waveTransition && isInvulnerable == old(isInvulnerable)
              case InvulnerabilityEnds(_) =>
                !isInvulnerable && currentWave == old(currentWave) && enemies == old(enemies) && waveTransition == old(waveTransition)
    {
      var t := timers[k];
      ghost var before := timers;
      timers := timers[..k] + timers[k + 1..];
      assert forall j :: 0 <= j < |timers| ==> timers[j] == before[if j < k then j else j + 1];
      match t
      case NextWave(_, w) =>
        var next := CreateWaveEnemies(w);
        currentWave, enemies, waveTransition := w + 1, next, false;
      case InvulnerabilityEnds(_) =>
        isInvulnerable := false;
    }

    /** `handleRestart`: everything back to the first wave; keys and pending timers stay. */
    method Restart()
      requires Valid()
      modifies this`playerX, this`playerY, this`bullets, this`enemyBullets, this`lasers, this`lastShot
      modifies this`enemies, this`gameState, this`score, this`lives, this`currentWave
      modifies this`isInvulnerable, this`waveTransition
      ensures Valid()
      ensures playerX == StartX && playerY == StartY && bullets == [] && enemyBullets == [] && lasers == []
      ensures enemies == WaveEnemies(0) && gameState == Playing && score == 0 && lives == PlayerLives
      ensures currentWave == 1 && !isInvulnerable && !waveTransition && lastShot == 0
    {
      ResetShip();
      ResetWave();
    }

    /** The ship back at its start, with no shot, enemy shot or laser in flight. */
    method ResetShip()
      requires Valid()
      modifies this`playerX, this`playerY, this`bullets, this`enemyBullets, this`lasers, this`lastShot
      ensures Valid()
      ensures playerX == StartX && playerY == StartY && lastShot == 0
      ensures bullets == [] && enemyBullets == [] && lasers == []
    {
      playerX, playerY, lastShot := StartX, StartY, 0;
      bullets, enemyBullets, lasers := [], [], [];
    }

    /** The first wave again, with full lives and no score. */
    method ResetWave()
      requires Valid()
      modifies this`enemies, this`gameState, this`score, this`lives, this`currentWave
      modifies this`isInvulnerable, this`waveTransition
      ensures Valid()
      ensures enemies == WaveEnemies(0) && gameState == Playing && score == 0 && lives == PlayerLives
      ensures currentWave == 1 && !isInvulnerable && !waveTransition
    {
      var first := CreateWaveEnemies(0);
      enemies, gameState, score, lives := first, Playing, 0, PlayerLives;
      currentWave, isInvulnerable, waveTransition := 1, false, false;
    }
  }

  /** The key groups of the listeners: arrows or WASD, and space to shoot;
      any other key changes nothing. */
  function PressKey(k: Keys, key: string, down: bool): (r: Keys)
    ensures key !in ["ArrowLeft", "a", "A", "ArrowRight", "d", "D", "ArrowUp", "w", "W", "ArrowDown", "s", "S", " "] ==> r == k
    ensures key in ["ArrowLeft", "a", "A"] ==> r == k.(left := down)
    ensures key in ["ArrowRight", "d", "D"] ==> r == k.(right := down)
    ensures key in ["ArrowUp", "w", "W"] ==> r == k.(up := down)
    ensures key in ["ArrowDown", "s", "S"] ==> r == k.(down := down)
    ensures key == " " ==> r == k.(shoot := down)
  {
    if key in ["ArrowLeft", "a", "A"] then k.(left := down)
    else if key in ["ArrowRight", "d", "D"] then k.(right := down)
    else if key in ["ArrowUp", "w", "W"] then k.(up := down)
    else if key in ["ArrowDown", "s", "S"] then k.(down := down)
    else if key == " " then k.(shoot := down)
    else k
  }
}
