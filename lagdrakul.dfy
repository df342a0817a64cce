/** The Lagdrakul boss fight (frontend/src/pages/BossFight-Lagdrakul.jsx): the
    player moves inside a 300 by 250 battle box and shoots upwards; the boss
    fires a fixed sequence of bullet patterns, at most one every 2000 ms.
    Each player bullet that reaches the boss costs it 2 of its 100 health,
    each boss bullet that touches the player costs 1 of their 7, followed by
    a second of invulnerability. */
module Lagdrakul {
  import opened Js
  import opened Seqs

  const BoxX := 250.0
  const BoxY := 300.0
  const BoxWidth := 300.0
  const BoxHeight := 250.0
  const PlayerWidth := 15.0
  const PlayerHeight := 30.0
  const PlayerSpeed := 5.0
  const BulletSpeed := 8.0
  const BossBulletSpeed := 2.5
  const BulletSize := 6.0

  const BossMaxHealth := 100
  const PlayerMaxHealth := 7
  const AttackCooldown := 2000
  const ShotCooldown := 200
  const InvulnerableMs := 1000

  // ---------------------------------------------------------------- bullets

  /** Which template string a boss bullet's id comes from. */
  datatype Tag = BossTag | HWaveTag | VWaveTag | TidalTag(wave: nat)

  /** A boss bullet id: template, spawn time and the loop counters in it. */
  datatype BulletId = BulletId(tag: Tag, time: int, group: int, index: int)

  datatype Bullet = Bullet(x: real, y: real, vx: real, vy: real, id: BulletId)

  datatype PlayerBullet = PlayerBullet(x: real, y: real, id: int)

  /** Pattern 0, bullet `i`: falling from the top edge at one fifth of the box apart. */
  function Horizontal(now: int, i: nat): Bullet
  {
    var spacing := BoxWidth / 5.0;
    Bullet(BoxX + spacing + (i as real) * spacing, BoxY, 0.0, BossBulletSpeed, BulletId(BossTag, now, 0, i))
  }

  /** Pattern 1, bullet `i`: moving right from the left edge at a quarter of the box apart. */
  function Vertical(now: int, i: nat): Bullet
  {
    var spacing := BoxHeight / 4.0;
    Bullet(BoxX, BoxY + spacing * (i as real + 0.5), BossBulletSpeed, 0.0, BulletId(BossTag, now, 0, i))
  }

  /** Pattern 2, platform `idx`, bullet `j`: rows at a quarter, half and three
      quarters of the box height, alternately moving right and left. */
  function HWave(now: int, idx: nat, j: nat): Bullet
  {
    var height := BoxY + BoxHeight * (0.25 * (idx as real + 1.0));
    var vx := if idx % 2 == 0 then BossBulletSpeed * 0.7 else -BossBulletSpeed * 0.7;
    Bullet(BoxX + (j as real) * BoxWidth / 5.0, height, vx, 0.0, BulletId(HWaveTag, now, idx, j))
  }

  /** Pattern 3, wave `wave`, column `i`: rising from the bottom edge at a column centre. */
  function VWave(now: int, wave: nat, i: nat): Bullet
  {
    Bullet(BoxX + (i as real) * BoxWidth / 5.0 + BoxWidth / 10.0, BoxY + BoxHeight,
           0.0, -BossBulletSpeed * 1.2, BulletId(VWaveTag, now, wave, i))
  }

  /** Pattern 4, tide `wave` (1, 2 or 3), column `col`, bullet `i`: tides 1 and 3
      start below the box and rise, tide 2 starts above it and falls. */
  function Tidal(now: int, wave: nat, col: nat, i: nat): Bullet
  {
    var x := BoxX + (col as real) * BoxWidth / 5.0 + BoxWidth / 10.0;
    if wave == 2 then
      Bullet(x, BoxY - 20.0 - (i as real) * 15.0, 0.0, BossBulletSpeed * 1.3, BulletId(TidalTag(wave), now, col, i))
    else
      Bullet(x, BoxY + BoxHeight + 20.0 + (i as real) * 15.0, 0.0, -BossBulletSpeed * 1.3, BulletId(TidalTag(wave), now, col, i))
  }

  /** The tide's bullets per column: ". .. ... .. ." */
  const LinePattern: seq<nat> := [1, 2, 3, 2, 1]

  // ---------------------------------------------------------------- volleys as specified

  function HorizontalVolley(now: int): (r: seq<Bullet>)
    ensures |r| == 4
  {
    seq(4, i requires 0 <= i < 4 => Horizontal(now, i))
  }

  function VerticalVolley(now: int): (r: seq<Bullet>)
    ensures |r| == 3
  {
    seq(3, i requires 0 <= i < 3 => Vertical(now, i))
  }

  /** The first `rows` platforms of pattern 2, six bullets each. */
  function HWaveRows(now: int, rows: nat): (r: seq<Bullet>)
    ensures |r| == 6 * rows
  {
    if rows == 0 then []
    else HWaveRows(now, rows - 1) + seq(6, j requires 0 <= j < 6 => HWave(now, rows - 1, j))
  }

  /** The columns before `n` of a rising wave, leaving out column `gap`. */
  function VWaveColumns(now: int, wave: nat, gap: int, n: nat): (r: seq<Bullet>)
    ensures |r| == if 0 <= gap < n then n - 1 else n
    ensures forall k :: 0 <= k < |r| ==> r[k].id.index != gap && 0 <= r[k].id.index < n
  {
    if n == 0 then []
    else VWaveColumns(now, wave, gap, n - 1) + (if n - 1 != gap then [VWave(now, wave, n - 1)] else [])
  }

  /** Every column but the gap gets a bullet. */
  lemma {:induction false} VWaveCovers(now: int, wave: nat, gap: int, n: nat, i: nat)
    requires i < n && i != gap
    ensures VWave(now, wave, i) in VWaveColumns(now, wave, gap, n)
  {
    if i < n - 1 {
      VWaveCovers(now, wave, gap, n - 1, i);
    }
  }

  function TideColumn(now: int, wave: nat, col: nat): (r: seq<Bullet>)
    requires col < |LinePattern|
    ensures |r| == LinePattern[col]
  {
    seq(LinePattern[col], i requires 0 <= i < LinePattern[col] => Tidal(now, wave, col, i))
  }

  /** The first `cols` columns of a tide. */
  function TideColumns(now: int, wave: nat, cols: nat): (r: seq<Bullet>)
    requires cols <= |LinePattern|
  {
    if cols == 0 then [] else TideColumns(now, wave, cols - 1) + TideColumn(now, wave, cols - 1)
  }

  /** A full tide has 1 + 2 + 3 + 2 + 1 bullets. */
  lemma TideSize(now: int, wave: nat)
    ensures |TideColumns(now, wave, 5)| == 9
  {
    assert |TideColumns(now, wave, 1)| == 1;
    assert |TideColumns(now, wave, 3)| == 6;
  }

  /** The bullets a pattern fires at once: patterns 3 and 4 fire only through timers. */
  function Volley(pattern: nat, now: int): seq<Bullet>
  {
    if pattern == 0 then HorizontalVolley(now)
    else if pattern == 1 then VerticalVolley(now)
    else if pattern == 2 then HWaveRows(now, 3)
    else []
  }

  /** A pending `setTimeout` callback. */
  datatype Timer =
    | VWaveTimer(due: int, spawnTime: int, wave: nat)
    | TideTimer(due: int, spawnTime: int, wave: nat)
    | InvulnerabilityEnds(due: int)

  /** The timers a pattern sets: three rising waves 600 ms apart, or three tides
      at 400, 1200 and 2000 ms. */
  function Schedule(pattern: nat, now: int): (r: seq<Timer>)
    ensures pattern == 3 || pattern == 4 ==> |r| == 3
    ensures pattern < 3 ==> r == []
  {
    if pattern == 3 then [VWaveTimer(now, now, 0), VWaveTimer(now + 600, now, 1), VWaveTimer(now + 1200, now, 2)]
    else if pattern == 4 then [TideTimer(now + 400, now, 1), TideTimer(now + 1200, now, 2), TideTimer(now + 2000, now, 3)]
    else []
  }

  /** Bullets fired by each pattern, counting every wave of the timed ones. */
  lemma VolleySizes(now: int, gap: int)
    requires 0 <= gap < 4
    ensures |Volley(0, now)| == 4 && |Volley(1, now)| == 3 && |Volley(2, now)| == 18
    ensures |VWaveColumns(now, 0, gap, 5)| == 4
    ensures |TideColumns(now, 1, 5)| == 9
  {
    TideSize(now, 1);
  }

  /** The gap of a rising wave is drawn among the first four columns only, so
      the rightmost column always carries a bullet. */
  lemma RightmostColumnAlwaysFires(now: int, wave: nat, r: real)
    requires 0.0 <= r < 1.0
    ensures VWave(now, wave, 4) in VWaveColumns(now, wave, (r * 4.0).Floor, 5)
  {
    VWaveCovers(now, wave, (r * 4.0).Floor, 5, 4);
  }

  // ---------------------------------------------------------------- pattern order

  /** The pattern of spawn number `n`: tide, rising waves, tide, then 0..4 in turn. */
  function PatternFor(n: nat): (p: nat)
    ensures p < 5
    ensures n == 0 || n == 2 ==> p == 4
    ensures n == 1 ==> p == 3
    ensures n >= 3 ==> p == (n - 3) % 5
  {
    if n == 0 then 4
    else if n == 1 then 3
    else if n == 2 then 4
    else (n - 3) % 5
  }

  /** After the opening three, any five consecutive spawns use every pattern once. */
  lemma EveryPatternInFive(n: nat, p: nat)
    requires n >= 3 && p < 5
    ensures exists k :: n <= k < n + 5 && PatternFor(k) == p
  {
    var k := n + (p - (n - 3)) % 5;
    assert (k - 3) % 5 == p;
    assert PatternFor(k) == p;
  }

  // ---------------------------------------------------------------- one frame, as specified

  /** The movement update: each held direction moves 5 towards it, stopping at
      the box's edge; right wins over left and down over up, because their
      checks come later and overwrite the new coordinate. */
  function MovePlayer(x: real, y: real, keys: set<string>): (p: (real, real))
    ensures BoxX <= x <= BoxX + BoxWidth - PlayerWidth ==> BoxX <= p.0 <= BoxX + BoxWidth - PlayerWidth
    ensures BoxY <= y <= BoxY + BoxHeight - PlayerHeight ==> BoxY <= p.1 <= BoxY + BoxHeight - PlayerHeight
    ensures !Held(keys, "ArrowLeft", "a", "A") && !Held(keys, "ArrowRight", "d", "D") ==> p.0 == x
    ensures !Held(keys, "ArrowUp", "w", "W") && !Held(keys, "ArrowDown", "s", "S") ==> p.1 == y
    ensures x - PlayerSpeed <= p.0 <= x + PlayerSpeed || p.0 == BoxX || p.0 == BoxX + BoxWidth - PlayerWidth
    ensures y - PlayerSpeed <= p.1 <= y + PlayerSpeed || p.1 == BoxY || p.1 == BoxY + BoxHeight - PlayerHeight
    ensures Held(keys, "ArrowRight", "d", "D") ==> p.0 == MinR(BoxX + BoxWidth - PlayerWidth, x + PlayerSpeed)
    ensures !Held(keys, "ArrowRight", "d", "D") && Held(keys, "ArrowLeft", "a", "A") ==> p.0 == MaxR(BoxX, x - PlayerSpeed)
    ensures Held(keys, "ArrowDown", "s", "S") ==> p.1 == MinR(BoxY + BoxHeight - PlayerHeight, y + PlayerSpeed)
    ensures !Held(keys, "ArrowDown", "s", "S") && Held(keys, "ArrowUp", "w", "W") ==> p.1 == MaxR(BoxY, y - PlayerSpeed)
  {
    var nx := if Held(keys, "ArrowRight", "d", "D") then MinR(BoxX + BoxWidth - PlayerWidth, x + PlayerSpeed)
              else if Held(keys, "ArrowLeft", "a", "A") then MaxR(BoxX, x - PlayerSpeed)
              else x;
    var ny := if Held(keys, "ArrowDown", "s", "S") then MinR(BoxY + BoxHeight - PlayerHeight, y + PlayerSpeed)
              else if Held(keys, "ArrowUp", "w", "W") then MaxR(BoxY, y - PlayerSpeed)
              else y;
    (nx, ny)
  }

  function RiseBullet(b: PlayerBullet): PlayerBullet
  {
    b.(y := b.y - BulletSpeed)
  }

  predicate OnScreen(b: PlayerBullet)
  {
    b.y > 0.0
  }

  /** Player bullets rise 8 and leave at the top of the screen. */
  function StepPlayerBullets(bs: seq<PlayerBullet>): (r: seq<PlayerBullet>)
    ensures |r| <= |bs|
    ensures forall k :: 0 <= k < |r| ==>
              OnScreen(r[k]) && exists i :: 0 <= i < |bs| && r[k] == RiseBullet(bs[i])
  {
    var moved := Map(bs, RiseBullet);
    assert forall k :: 0 <= k < |moved| ==> moved[k] == RiseBullet(bs[k]);
    Filter(moved, OnScreen)
  }

  /** A bullet is kept, risen, exactly when it is still below the top edge. */
  lemma StepPlayerBulletsKeeps(bs: seq<PlayerBullet>, i: nat)
    requires i < |bs|
    ensures RiseBullet(bs[i]) in StepPlayerBullets(bs) <==> bs[i].y > BulletSpeed
  {
    var moved := Map(bs, RiseBullet);
    assert moved[i] == RiseBullet(bs[i]);
    FilterMembers(moved, OnScreen, moved[i]);
  }

  /** The kept bullets keep their order: stepping a joined list joins the steps. */
  lemma StepPlayerBulletsAppend(a: seq<PlayerBullet>, b: seq<PlayerBullet>)
    ensures StepPlayerBullets(a + b) == StepPlayerBullets(a) + StepPlayerBullets(b)
  {
    MapAppend(a, b, RiseBullet);
    FilterAppend(Map(a, RiseBullet), Map(b, RiseBullet), OnScreen);
  }

  /** The region where a player bullet strikes the boss. */
  predicate InBossZone(b: PlayerBullet)
  {
    b.y < 200.0 && 300.0 < b.x < 500.0
  }

  /** The boss's health after `hits` bullets strike it in one frame. */
  function BossAfterHits(health: int, hits: nat): (h: int)
    ensures 0 <= health ==> 0 <= h <= health
    ensures 2 * hits <= health ==> h == health - 2 * hits
    ensures 2 * hits > health ==> h == 0 || (hits == 0 && h == health)
  {
    if hits > 0 then MaxI(0, health - 2 * hits) else health
  }

  function MoveBullet(b: Bullet): Bullet
  {
    b.(x := b.x + b.vx, y := b.y + b.vy)
  }

  /** The box with a 20-pixel margin, outside which boss bullets are dropped. */
  predicate InArena(b: Bullet)
  {
    BoxX - 20.0 < b.x < BoxX + BoxWidth + 20.0 && BoxY - 20.0 < b.y < BoxY + BoxHeight + 20.0
  }

  /** Boss bullets move by their velocity and are dropped once outside the
      margin. The update's lifetime filter never drops one: no boss bullet
      is created with a lifetime. */
  function StepBossBullets(bs: seq<Bullet>): (r: seq<Bullet>)
    ensures |r| <= |bs|
    ensures forall k :: 0 <= k < |r| ==>
              InArena(r[k]) && exists i :: 0 <= i < |bs| && r[k] == MoveBullet(bs[i])
  {
    var moved := Map(bs, MoveBullet);
    assert forall k :: 0 <= k < |moved| ==> moved[k] == MoveBullet(bs[k]);
    Filter(moved, InArena)
  }

  /** A bullet is kept, moved, exactly when its move leaves it inside the margin. */
  lemma StepBossBulletsKeeps(bs: seq<Bullet>, i: nat)
    requires i < |bs|
    ensures MoveBullet(bs[i]) in StepBossBullets(bs) <==> InArena(MoveBullet(bs[i]))
  {
    var moved := Map(bs, MoveBullet);
    assert moved[i] == MoveBullet(bs[i]);
    FilterMembers(moved, InArena, moved[i]);
  }

  /** A bullet touching the player at (x, y), enlarged by the bullet size. */
  predicate Touches(b: Bullet, x: real, y: real)
  {
    x - BulletSize < b.x < x + PlayerWidth + BulletSize && y - BulletSize < b.y < y + PlayerHeight + BulletSize
  }

  /** `find`: the first bullet touching the player. */
  function FirstHit(bs: seq<Bullet>, x: real, y: real): (h: Option<Bullet>)
    ensures h.None? <==> forall k :: 0 <= k < |bs| ==> !Touches(bs[k], x, y)
    ensures h.Some? ==> exists k :: 0 <= k < |bs| && bs[k] == h.value && Touches(bs[k], x, y)
                                    && forall j :: 0 <= j < k ==> !Touches(bs[j], x, y)
  {
    if bs == [] then None
    else if Touches(bs[0], x, y) then Some(bs[0])
    else
      var rest := FirstHit(bs[1..], x, y);
      assert forall k :: 1 <= k < |bs| ==> bs[k] == bs[1..][k - 1];
      rest
  }

  /** The bullets whose id differs from `id`. */
  function RemoveId(bs: seq<Bullet>, id: BulletId): (r: seq<Bullet>)
    ensures forall k :: 0 <= k < |r| ==> r[k].id != id
  {
    Filter(bs, (b: Bullet) => b.id != id)
  }

  /** Removing a hit bullet keeps exactly the bullets with other ids. */
  lemma RemoveIdMembers(bs: seq<Bullet>, id: BulletId, b: Bullet)
    ensures b in RemoveId(bs, id) <==> b in bs && b.id != id
  {
    FilterMembers(bs, (b: Bullet) => b.id != id, b);
  }

  /** The hit of a frame: the first moved bullet touching the player,
      unless the player is invulnerable. */
  function FrameHit(bs: seq<Bullet>, invulnerable: bool, x: real, y: real): Option<Bullet>
  {
    if invulnerable then None else FirstHit(StepBossBullets(bs), x, y)
  }

  /** The moved boss bullets without the one that hit, if one did. */
  function AfterHit(bs: seq<Bullet>, hit: Option<Bullet>): seq<Bullet>
  {
    var moved := StepBossBullets(bs);
    if hit.Some? then RemoveId(moved, hit.value.id) else moved
  }

  /** The invulnerability timer a hit starts. */
  function HitTimers(hit: Option<Bullet>, now: int): seq<Timer>
  {
    if hit.Some? then [InvulnerabilityEnds(now + InvulnerableMs)] else []
  }

  /** The player's health after the frame's hit, if any. */
  function HealthAfterHit(health: int, hit: Option<Bullet>): int
  {
    if hit.Some? then MaxI(0, health - 1) else health
  }

  datatype GameState = Playing | Won | Lost

  /** The outcome effect: a defeated boss wins even if the player is down too. */
  function Outcome(bossHealth: int, playerHealth: int): (s: GameState)
    ensures s == Won <==> bossHealth <= 0
    ensures s == Lost <==> bossHealth > 0 && playerHealth <= 0
    ensures s == Playing <==> bossHealth > 0 && playerHealth > 0
  {
    if bossHealth <= 0 then Won else if playerHealth <= 0 then Lost else Playing
  }

  // ---------------------------------------------------------------- the tide and the margin

  /** Of a column of the tide only the leading bullet is inside the margin
      after one step: the others start 15 or 30 pixels further out. */
  lemma TideColumnStep(now: int, wave: nat, col: nat)
    requires col < |LinePattern| && 1 <= wave <= 3
    ensures StepBossBullets(TideColumn(now, wave, col)) == [MoveBullet(Tidal(now, wave, col, 0))]
  {
    var c := TideColumn(now, wave, col);
    var m := Map(c, MoveBullet);
    assert m == [m[0]] + m[1..];
    assert InArena(m[0]);
    FilterNone(m[1..], InArena);
  }

  /** Each tide therefore brings only five bullets, one per column, into the
      fight, although its pattern lists nine. */
  lemma {:induction false} TideSurvivors(now: int, wave: nat, cols: nat)
    requires cols <= |LinePattern| && 1 <= wave <= 3
    ensures StepBossBullets(TideColumns(now, wave, cols))
            == seq(cols, col requires 0 <= col < cols => MoveBullet(Tidal(now, wave, col, 0)))
  {
    if cols > 0 {
      var front := TideColumns(now, wave, cols - 1);
      var last := TideColumn(now, wave, cols - 1);
      StepAppend(front, last);
      TideSurvivors(now, wave, cols - 1);
      TideColumnStep(now, wave, cols - 1);
      var leads := seq(cols, col requires 0 <= col < cols => MoveBullet(Tidal(now, wave, col, 0)));
      assert leads == leads[..cols - 1] + [leads[cols - 1]];
    }
  }

  /** The step of a joined list joins the steps of its parts. */
  lemma StepAppend(a: seq<Bullet>, b: seq<Bullet>)
    ensures StepBossBullets(a + b) == StepBossBullets(a) + StepBossBullets(b)
  {
    MapAppend(a, b, MoveBullet);
    FilterAppend(Map(a, MoveBullet), Map(b, MoveBullet), InArena);
  }

  // ---------------------------------------------------------------- the page

  class BossFight {
    var gameState: GameState
    var x: real
    var y: real
    var playerBullets: seq<PlayerBullet>
    var bossBullets: seq<Bullet>
    var bossHealth: int
    var playerHealth: int
    var invulnerable: bool
    var keys: set<string>
    var lastShot: int
    var attackPattern: nat
    var lastAttack: int
    var timers: seq<Timer>

    /** The player stays in the box, both healths stay between 0 and their
        start, and the state agrees with the outcome effect. */
    ghost predicate Valid()
      reads this
    {
      && BoxX <= x <= BoxX + BoxWidth - PlayerWidth
      && BoxY <= y <= BoxY + BoxHeight - PlayerHeight
      && 0 <= bossHealth <= BossMaxHealth
      && 0 <= playerHealth <= PlayerMaxHealth
      && gameState == Outcome(bossHealth, playerHealth)
    }

    constructor ()
      ensures Valid()
      ensures gameState == Playing && x == 392.5 && y == 425.0
      ensures playerBullets == [] && bossBullets == [] && bossHealth == 100 && playerHealth == 7
      ensures !invulnerable && keys == {} && lastShot == 0 && attackPattern == 0 && lastAttack == 0
      ensures timers == []
    {
      gameState := Playing;
      x := BoxX + BoxWidth / 2.0 - PlayerWidth / 2.0;
      y := BoxY + BoxHeight / 2.0;
      playerBullets := [];
      bossBullets := [];
      bossHealth := BossMaxHealth;
      playerHealth := PlayerMaxHealth;
      invulnerable := false;
      keys := {};
      lastShot := 0;
      attackPattern := 0;
      lastAttack := 0;
      timers := [];
    }

    /** The keydown listener: remember the key, and shoot on z, Z or space
        when the last shot is more than 200 ms old. */
    method KeyDown(key: string, now: int)
      requires Valid()
      modifies this`keys, this`lastShot, this`playerBullets
      ensures Valid() && keys == old(keys) + {key}
      ensures var shoots := (key == "z" || key == "Z" || key == " ") && now - old(lastShot) > ShotCooldown;
              && (shoots ==> lastShot == now
                             && playerBullets == old(playerBullets) + [PlayerBullet(x + PlayerWidth / 2.0 - 2.0, y, now)])
              && (!shoots ==> lastShot == old(lastShot) && playerBullets == old(playerBullets))
    {
      keys := keys + {key};
      if (key == "z" || key == "Z" || key == " ") && now - lastShot > ShotCooldown {
        lastShot := now;
        playerBullets := playerBullets + [PlayerBullet(x + PlayerWidth / 2.0 - 2.0, y, now)];
      }
    }

    method KeyUp(key: string)
      requires Valid()
      modifies this`keys
      ensures Valid() && keys == old(keys) - {key}
    {
      keys := keys - {key};
    }

    /** `spawnBossAttack`: nothing within 2000 ms of the last attack; otherwise
        fire the next pattern of the sequence and count it. */
    method SpawnBossAttack(now: int)
      modifies this`lastAttack, this`attackPattern, this`bossBullets, this`timers
      ensures var spawned := now - old(lastAttack) >= AttackCooldown;
              var pattern := PatternFor(old(attackPattern));
              && bossBullets == old(bossBullets) + (if spawned then Volley(pattern, now) else [])
              && timers == old(timers) + (if spawned then Schedule(pattern, now) else [])
              && attackPattern == old(attackPattern) + (if spawned then 1 else 0)
              && lastAttack == (if spawned then now else old(lastAttack))
    {
      if now - lastAttack < AttackCooldown {
        return;
      }
      lastAttack := now;
      var pattern;
      if attackPattern == 0 {
        pattern := 4;
      } else if attackPattern == 1 {
        pattern := 3;
      } else if attackPattern == 2 {
        pattern := 4;
      } else {
        pattern := (attackPattern - 3) % 5;
      }
      attackPattern := attackPattern + 1;
      var newBullets: seq<Bullet>;
      if pattern == 0 {
        newBullets := BuildHorizontal(now);
      } else if pattern == 1 {
        newBullets := BuildVertical(now);
      } else if pattern == 2 {
        newBullets := BuildHWaves(now);
      } else {
        timers := timers + Schedule(pattern, now);
        return;
      }
      bossBullets := bossBullets + newBullets;
    }

    /** One animation frame while playing: move, advance both bullet lists,
        apply the hits, maybe spawn an attack, then decide the outcome. The
        hit test uses the position the frame started with. */
    method Frame(now: int)
      requires Valid() && gameState == Playing
      modifies this`x, this`y, this`playerBullets, this`bossHealth, this`bossBullets, this`playerHealth,
               this`invulnerable, this`timers, this`attackPattern, this`lastAttack, this`gameState
      ensures Valid()
      ensures (x, y) == MovePlayer(old(x), old(y), old(keys))
      ensures var moved := StepPlayerBullets(old(playerBullets));
              && playerBullets == Filter(moved, (b: PlayerBullet) => !InBossZone(b))
              && bossHealth == BossAfterHits(old(bossHealth), |Filter(moved, InBossZone)|)
      ensures var hit := FrameHit(old(bossBullets), old(invulnerable), old(x), old(y));
              var spawned := now - old(lastAttack) >= AttackCooldown;
              var pattern := PatternFor(old(attackPattern));
              && playerHealth == HealthAfterHit(old(playerHealth), hit)
              && invulnerable == (old(invulnerable) || hit.Some?)
              && bossBullets == AfterHit(old(bossBullets), hit) + (if spawned then Volley(pattern, now) else [])
              && timers == old(timers) + HitTimers(hit, now) + (if spawned then Schedule(pattern, now) else [])
              && attackPattern == old(attackPattern) + (if spawned then 1 else 0)
              && lastAttack == (if spawned then now else old(lastAttack))
      ensures gameState == Outcome(bossHealth, playerHealth)
    {
      Advance(now);
      SpawnBossAttack(now);
      gameState := Outcome(bossHealth, playerHealth);
    }

    /** The part of a frame before the attack: the player's move, the shots
        at the boss, and the boss bullets' move and hit test against the
        position the frame started with. */
    method Advance(now: int)
      requires Valid()
      modifies this`x, this`y, this`playerBullets, this`bossHealth, this`bossBullets, this`playerHealth,
               this`invulnerable, this`timers
      ensures (x, y) == MovePlayer(old(x), old(y), old(keys))
      ensures BoxX <= x <= BoxX + BoxWidth - PlayerWidth && BoxY <= y <= BoxY + BoxHeight - PlayerHeight
      ensures var moved := StepPlayerBullets(old(playerBullets));
              && playerBullets == Filter(moved, (b: PlayerBullet) => !InBossZone(b))
              && bossHealth == BossAfterHits(old(bossHealth), |Filter(moved, InBossZone)|)
      ensures var hit := FrameHit(old(bossBullets), old(invulnerable), old(x), old(y));
              && playerHealth == HealthAfterHit(old(playerHealth), hit)
              && invulnerable == (old(invulnerable) || hit.Some?)
              && bossBullets == AfterHit(old(bossBullets), hit)
              && timers == old(timers) + HitTimers(hit, now)
      ensures 0 <= bossHealth <= BossMaxHealth && 0 <= playerHealth <= PlayerMaxHealth
    {
      var startX, startY := x, y;
      MoveAndShots();
      BossBulletsAndHit(now, startX, startY);
    }

    /** The movement update and the player-bullet update of a frame. */
    method MoveAndShots()
      requires Valid()
      modifies this`x, this`y, this`playerBullets, this`bossHealth
      ensures (x, y) == MovePlayer(old(x), old(y), old(keys))
      ensures BoxX <= x <= BoxX + BoxWidth - PlayerWidth && BoxY <= y <= BoxY + BoxHeight - PlayerHeight
      ensures var moved := StepPlayerBullets(old(playerBullets));
              && playerBullets == Filter(moved, (b: PlayerBullet) => !InBossZone(b))
              && bossHealth == BossAfterHits(old(bossHealth), |Filter(moved, InBossZone)|)
      ensures 0 <= bossHealth <= BossMaxHealth
    {
      var p := MovePlayer(x, y, keys);
      x, y := p.0, p.1;
      var movedShots := StepPlayerBullets(playerBullets);
      var hits := Filter(movedShots, InBossZone);
      if |hits| > 0 {
        bossHealth := MaxI(0, bossHealth - |hits| * 2);
        playerBullets := Filter(movedShots, (b: PlayerBullet) => !InBossZone(b));
      } else {
        NoHitsKeepsAll(movedShots);
        playerBullets := movedShots;
      }
    }

    /** The boss-bullet update and, unless invulnerable, the hit test against
        the player's position (`px`, `py`) at the start of the frame. */
    method BossBulletsAndHit(now: int, px: real, py: real)
      requires 0 <= playerHealth <= PlayerMaxHealth
      modifies this`bossBullets, this`playerHealth, this`invulnerable, this`timers
      ensures var hit := FrameHit(old(bossBullets), old(invulnerable), px, py);
              && playerHealth == HealthAfterHit(old(playerHealth), hit)
              && invulnerable == (old(invulnerable) || hit.Some?)
              && bossBullets == AfterHit(old(bossBullets), hit)
              && timers == old(timers) + HitTimers(hit, now)
      ensures 0 <= playerHealth <= PlayerMaxHealth
    {
      bossBullets := StepBossBullets(bossBullets);
      if !invulnerable {
        var hit := FirstHit(bossBullets, px, py);
        if hit.Some? {
          playerHealth := MaxI(0, playerHealth - 1);
          invulnerable := true;
          timers := timers + [InvulnerabilityEnds(now + InvulnerableMs)];
          bossBullets := RemoveId(bossBullets, hit.value.id);
        }
      }
    }

    /** A timer callback coming due: the chosen pending timer `k` runs; `r` is
        the `Math.random()` a rising wave draws its gap with. */
    method FireTimer(k: nat, r: real)
      requires Valid() && k < |timers| && 0.0 <= r < 1.0
      modifies this`timers, this`bossBullets, this`invulnerable
      ensures Valid()
      ensures timers == old(timers)[..k] + old(timers)[k + 1..]
      ensures match old(timers)[k]
              case VWaveTimer(_, spawnTime, wave) =>
                bossBullets == old(bossBullets) + VWaveColumns(spawnTime, wave, (r * 4.0).Floor, 5)
                && invulnerable == old(invulnerable)
              case TideTimer(_, spawnTime, wave) =>
                bossBullets == old(bossBullets) + TideColumns(spawnTime, wave, 5)
                && invulnerable == old(invulnerable)
              case InvulnerabilityEnds(_) =>
                bossBullets == old(bossBullets) && !invulnerable
    {
      var t := timers[k];
      timers := timers[..k] + timers[k + 1..];
      match t
      case VWaveTimer(_, spawnTime, wave) =>
        var wb := BuildVWave(spawnTime, wave, (r * 4.0).Floor);
        bossBullets := bossBullets + wb;
      case TideTimer(_, spawnTime, wave) =>
        var tb := BuildTide(spawnTime, wave);
        bossBullets := bossBullets + tb;
      case InvulnerabilityEnds(_) =>
        invulnerable := false;
    }

    /** `resetGame`: a fresh fight; timers already set keep running. */
    method Reset()
      modifies this`gameState, this`x, this`y, this`playerBullets, this`bossBullets, this`bossHealth,
               this`playerHealth, this`invulnerable, this`attackPattern, this`lastAttack
      ensures Valid()
      ensures gameState == Playing && x == 392.5 && y == 425.0
      ensures playerBullets == [] && bossBullets == [] && bossHealth == 100 && playerHealth == 7
      ensures !invulnerable && attackPattern == 0 && lastAttack == 0
    {
      gameState := Playing;
      x := BoxX + BoxWidth / 2.0 - PlayerWidth / 2.0;
      y := BoxY + BoxHeight / 2.0;
      playerBullets := [];
      bossBullets := [];
      bossHealth := BossMaxHealth;
      playerHealth := PlayerMaxHealth;
      invulnerable := false;
      attackPattern := 0;
      lastAttack := 0;
    }
  }

  lemma NoHitsKeepsAll(moved: seq<PlayerBullet>)
    requires |Filter(moved, InBossZone)| == 0
    ensures Filter(moved, (b: PlayerBullet) => !InBossZone(b)) == moved
  {
    forall k | 0 <= k < |moved| ensures !InBossZone(moved[k]) {
      FilterMembers(moved, InBossZone, moved[k]);
    }
    FilterAll(moved, (b: PlayerBullet) => !InBossZone(b));
  }

  // ---------------------------------------------------------------- the loops that build volleys

  method BuildHorizontal(now: int) returns (bs: seq<Bullet>)
    ensures bs == HorizontalVolley(now)
  {
    bs := [];
    for i := 0 to 4
      invariant bs == seq(i, k requires 0 <= k < i => Horizontal(now, k))
    {
      bs := bs + [Horizontal(now, i)];
    }
  }

  method BuildVertical(now: int) returns (bs: seq<Bullet>)
    ensures bs == VerticalVolley(now)
  {
    bs := [];
    for i := 0 to 3
      invariant bs == seq(i, k requires 0 <= k < i => Vertical(now, k))
    {
      bs := bs + [Vertical(now, i)];
    }
  }

  method BuildHWaves(now: int) returns (bs: seq<Bullet>)
    ensures bs == HWaveRows(now, 3)
  {
    bs := [];
    for idx := 0 to 3
      invariant bs == HWaveRows(now, idx)
    {
      for j := 0 to 6
        invariant bs == HWaveRows(now, idx) + seq(j, k requires 0 <= k < j => HWave(now, idx, k))
      {
        bs := bs + [HWave(now, idx, j)];
      }
    }
  }

  method BuildVWave(now: int, wave: nat, gap: int) returns (bs: seq<Bullet>)
    ensures bs == VWaveColumns(now, wave, gap, 5)
  {
    bs := [];
    for i := 0 to 5
      invariant bs == VWaveColumns(now, wave, gap, i)
    {
      if i != gap {
        bs := bs + [VWave(now, wave, i)];
      }
    }
  }

  method BuildTide(now: int, wave: nat) returns (bs: seq<Bullet>)
    ensures bs == TideColumns(now, wave, 5)
  {
    bs := [];
    for col := 0 to 5
      invariant bs == TideColumns(now, wave, col)
    {
      var count := LinePattern[col];
      for i := 0 to count
        invariant bs == TideColumns(now, wave, col) + seq(i, k requires 0 <= k < i => Tidal(now, wave, col, k))
      {
        bs := bs + [Tidal(now, wave, col, i)];
      }
    }
  }
}
