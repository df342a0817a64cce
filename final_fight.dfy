/** The two-stage final fight (frontend/src/pages/PasswordGame.jsx): an intro,
    a 20-second first stage, a break, a 25-second second stage and the win.
    The boss's health is a pure function of the time spent in the stage;
    hits only make the player briefly invulnerable. The boss fires patterns
    that grow denser with time, and its laser volleys always leave one
    column free. */
module FinalFight {
  import opened Js
  import opened Seqs

  const BoxX := 250.0
  const BoxY := 180.0
  const BoxWidth := 300.0
  const BoxHeight := 260.0
  const PlayerSize := 18.0
  const PlayerSpeed := 5.0
  const Margin := 40.0

  const StageOneDuration := 20000
  const StageTwoDuration := 25000
  const InvulnerableMs := 400
  const LaserDelay := 350

  /** `clamp(value, min, max)`. */
  function Clamp(v: real, lo: real, hi: real): (r: real)
    ensures lo <= hi ==> lo <= r <= hi
    ensures lo <= v <= hi ==> r == v
    ensures v < lo ==> r == lo
    ensures lo <= hi && hi < v ==> r == hi
  {
    MaxR(lo, MinR(hi, v))
  }

  /** Clamping never reverses an order. */
  lemma ClampMonotone(u: real, v: real, lo: real, hi: real)
    requires u <= v
    ensures Clamp(u, lo, hi) <= Clamp(v, lo, hi)
  {
  }

  // ---------------------------------------------------------------- time-based rules

  function Duration(stage: nat): int
  {
    if stage == 1 then StageOneDuration else StageTwoDuration
  }

  /** The share of the stage already played, between 0 and 1. */
  function StageT(stage: nat, elapsed: int): (t: real)
    ensures 0.0 <= t <= 1.0
  {
    Clamp(elapsed as real / Duration(stage) as real, 0.0, 1.0)
  }

  lemma StageTMonotone(stage: nat, e1: int, e2: int)
    requires e1 <= e2
    ensures StageT(stage, e1) <= StageT(stage, e2)
  {
    var d := Duration(stage) as real;
    assert e1 as real / d <= e2 as real / d;
    ClampMonotone(e1 as real / d, e2 as real / d, 0.0, 1.0);
  }

  /** The boss's health: from 100 down to 50 over stage 1, from 50 down to 0 over stage 2. */
  function Health(stage: nat, t: real): (h: int)
    ensures 0.0 <= t <= 1.0 && stage == 1 ==> 50 <= h <= 100
    ensures 0.0 <= t <= 1.0 && stage != 1 ==> 0 <= h <= 50
    ensures t == 0.0 ==> h == (if stage == 1 then 100 else 50)
    ensures t == 1.0 ==> h == (if stage == 1 then 50 else 0)
  {
    var ratio := MaxR(0.0, 1.0 - t);
    var part := Round(ratio * 50.0);
    RoundBetween(ratio * 50.0);
    if stage == 1 then 50 + part else part
  }

  lemma RoundBetween(x: real)
    ensures 0.0 <= x <= 50.0 ==> 0 <= Round(x) <= 50
    ensures x == 0.0 ==> Round(x) == 0
    ensures x == 50.0 ==> Round(x) == 50
  {
    RoundOfInt(0);
    RoundOfInt(50);
    if 0.0 <= x <= 50.0 {
      RoundMonotone(0.0, x);
      RoundMonotone(x, 50.0);
    }
  }

  /** Health never rises as the stage goes on. */
  lemma HealthNonIncreasing(stage: nat, e1: int, e2: int)
    requires e1 <= e2
    ensures Health(stage, StageT(stage, e2)) <= Health(stage, StageT(stage, e1))
  {
    StageTMonotone(stage, e1, e2);
    var t1, t2 := StageT(stage, e1), StageT(stage, e2);
    RoundMonotone(MaxR(0.0, 1.0 - t2) * 50.0, MaxR(0.0, 1.0 - t1) * 50.0);
  }

  /** Time between attacks: 900 then 750 ms in stage 1 (split at half time),
      620 then 480 ms in stage 2 (split at 40 percent). */
  function AttackInterval(stage: nat, t: real): (ms: int)
    ensures stage == 1 ==> (ms == 900 <==> t < 0.5) && (ms == 750 <==> t >= 0.5)
    ensures stage != 1 ==> (ms == 620 <==> t < 0.4) && (ms == 480 <==> t >= 0.4)
  {
    if stage == 1 then (if t < 0.5 then 900 else 750)
    else (if t < 0.4 then 620 else 480)
  }

  // ---------------------------------------------------------------- movement

  const MaxX := BoxX + BoxWidth - PlayerSize
  const MaxY := BoxY + BoxHeight - PlayerSize

  /** Each held direction adds or takes 5, then the box clamps the result;
      opposite keys held together cancel out. */
  function MovePlayer(x: real, y: real, keys: set<string>): (p: (real, real))
    ensures BoxX <= p.0 <= MaxX && BoxY <= p.1 <= MaxY
    ensures BoxX <= x <= MaxX && Held(keys, "ArrowLeft", "a", "A") == Held(keys, "ArrowRight", "d", "D") ==> p.0 == x
    ensures BoxY <= y <= MaxY && Held(keys, "ArrowUp", "w", "W") == Held(keys, "ArrowDown", "s", "S") ==> p.1 == y
    ensures Held(keys, "ArrowLeft", "a", "A") == Held(keys, "ArrowRight", "d", "D") ==> p.0 == Clamp(x, BoxX, MaxX)
    ensures Held(keys, "ArrowLeft", "a", "A") && !Held(keys, "ArrowRight", "d", "D") ==> p.0 == Clamp(x - PlayerSpeed, BoxX, MaxX)
    ensures Held(keys, "ArrowRight", "d", "D") && !Held(keys, "ArrowLeft", "a", "A") ==> p.0 == Clamp(x + PlayerSpeed, BoxX, MaxX)
    ensures Held(keys, "ArrowUp", "w", "W") == Held(keys, "ArrowDown", "s", "S") ==> p.1 == Clamp(y, BoxY, MaxY)
    ensures Held(keys, "ArrowUp", "w", "W") && !Held(keys, "ArrowDown", "s", "S") ==> p.1 == Clamp(y - PlayerSpeed, BoxY, MaxY)
    ensures Held(keys, "ArrowDown", "s", "S") && !Held(keys, "ArrowUp", "w", "W") ==> p.1 == Clamp(y + PlayerSpeed, BoxY, MaxY)
  {
    var dx := (if Held(keys, "ArrowLeft", "a", "A") then -PlayerSpeed else 0.0)
              + (if Held(keys, "ArrowRight", "d", "D") then PlayerSpeed else 0.0);
    var dy := (if Held(keys, "ArrowUp", "w", "W") then -PlayerSpeed else 0.0)
              + (if Held(keys, "ArrowDown", "s", "S") then PlayerSpeed else 0.0);
    (Clamp(x + dx, BoxX, MaxX), Clamp(y + dy, BoxY, MaxY))
  }

  // ---------------------------------------------------------------- bullets

  /** Which template string a bullet's id comes from. */
  datatype Tag = Rain | DiagL | DiagR | Bar | Rise | Net | Warning | Laser | RiseF | TopF | WarningF | LaserF

  datatype BulletId = BulletId(tag: Tag, time: int, a: int, b: int)

  /** The lifetime of a warning or laser: `lifeMs` counted from `bornAt`. */
  datatype Life = Life(lifeMs: int, bornAt: int)

  datatype Bullet = Bullet(id: BulletId, x: real, y: real, vx: real, vy: real,
                           width: real, height: real, life: Option<Life>, isWarning: bool)

  function Moved(b: Bullet): Bullet
  {
    b.(x := b.x + b.vx, y := b.y + b.vy)
  }

  predicate Expired(b: Bullet, clock: int)
  {
    b.life.Some? && clock - b.life.value.bornAt > b.life.value.lifeMs
  }

  /** The new position is outside the box widened by 40 on every side. */
  predicate OutOfMargin(m: Bullet)
  {
    m.x + m.width < BoxX - Margin || m.x > BoxX + BoxWidth + Margin
    || m.y + m.height < BoxY - Margin || m.y > BoxY + BoxHeight + Margin
  }

  /** A bullet the update keeps (or consumes): alive and inside the margin. */
  predicate Survives(b: Bullet, clock: int)
  {
    !Expired(b, clock) && !OutOfMargin(Moved(b))
  }

  predicate Overlaps(m: Bullet, px: real, py: real)
  {
    m.x < px + PlayerSize && m.x + m.width > px && m.y < py + PlayerSize && m.y + m.height > py
  }

  /** A moved bullet that would hurt the player: no warning, and its box
      overlaps the player's. */
  predicate HitsPlayer(b: Bullet, px: real, py: real)
  {
    !b.isWarning && Overlaps(Moved(b), px, py)
  }

  /** One turn of the update loop: drop, consume on the frame's first hit, or keep moved. */
  function StepOne(b: Bullet, acc: (seq<Bullet>, bool), clock: int, px: real, py: real, invulnerable: bool)
    : (r: (seq<Bullet>, bool))
    ensures !Survives(b, clock) ==> r == acc
    ensures Survives(b, clock) ==>
              (r == (acc.0, true) <==> !invulnerable && !acc.1 && HitsPlayer(b, px, py))
    ensures Survives(b, clock) && (invulnerable || acc.1 || !HitsPlayer(b, px, py)) ==>
              r == (acc.0 + [Moved(b)], acc.1)
  {
    if !Survives(b, clock) then acc
    else if !invulnerable && !b.isWarning && !acc.1 && Overlaps(Moved(b), px, py) then (acc.0, true)
    else (acc.0 + [Moved(b)], acc.1)
  }

  /** The update loop over a whole list: the kept bullets and whether the player was hit. */
  function StepAll(bs: seq<Bullet>, clock: int, px: real, py: real, invulnerable: bool): (r: (seq<Bullet>, bool))
    ensures |r.0| <= |bs|
    ensures invulnerable ==> !r.1
    ensures !invulnerable && (exists k :: 0 <= k < |bs| && Survives(bs[k], clock) && HitsPlayer(bs[k], px, py)) ==> r.1
  {
    if bs == [] then ([], false)
    else
      var pre, b := bs[..|bs| - 1], bs[|bs| - 1];
      var r := StepOne(b, StepAll(pre, clock, px, py, invulnerable), clock, px, py, invulnerable);
      assert forall k :: 0 <= k < |pre| ==> pre[k] == bs[k];
      r
  }

  /** The bullets the update neither drops nor, when expired, forgets: in their order. */
  function Survivors(bs: seq<Bullet>, clock: int): (s: seq<Bullet>)
    ensures forall k :: 0 <= k < |s| ==> s[k] in bs && Survives(s[k], clock)
  {
    if bs == [] then []
    else Survivors(bs[..|bs| - 1], clock) + (if Survives(bs[|bs| - 1], clock) then [bs[|bs| - 1]] else [])
  }

  /** The index of the first bullet of `s` that would hurt the player, or
      `|s|` when none would. */
  function FirstHitter(s: seq<Bullet>, px: real, py: real): (k: nat)
    ensures k <= |s|
    ensures k < |s| ==> HitsPlayer(s[k], px, py)
    ensures forall j :: 0 <= j < k ==> !HitsPlayer(s[j], px, py)
  {
    if s == [] then 0
    else
      var k := FirstHitter(s[..|s| - 1], px, py);
      assert forall j :: 0 <= j < |s| - 1 ==> s[..|s| - 1][j] == s[j];
      if k < |s| - 1 then k
      else if HitsPlayer(s[|s| - 1], px, py) then |s| - 1
      else |s|
  }

  /** The update, stated on the survivors `s` of the frame: unless the player
      is invulnerable, the first bullet that would hurt is consumed and the
      player is hit; every other survivor moves on, in order. */
  function UpdateSpec(s: seq<Bullet>, px: real, py: real, invulnerable: bool): (r: (seq<Bullet>, bool))
    ensures r.1 <==> !invulnerable && exists k :: 0 <= k < |s| && HitsPlayer(s[k], px, py)
    ensures !r.1 ==> r.0 == Map(s, Moved)
    ensures r.1 ==> exists k :: 0 <= k < |s| && HitsPlayer(s[k], px, py)
                                && (forall j :: 0 <= j < k ==> !HitsPlayer(s[j], px, py))
                                && r.0 == Map(s[..k] + s[k + 1..], Moved)
  {
    var k := FirstHitter(s, px, py);
    if invulnerable || k == |s| then (Map(s, Moved), false)
    else (Map(s[..k] + s[k + 1..], Moved), true)
  }

  /** The update loop meets that statement: it consumes exactly the first
      survivor that would hurt the player, and moves the others in order. */
  lemma {:induction false} StepAllSpec(bs: seq<Bullet>, clock: int, px: real, py: real, invulnerable: bool)
    ensures StepAll(bs, clock, px, py, invulnerable) == UpdateSpec(Survivors(bs, clock), px, py, invulnerable)
  {
    if bs != [] {
      var pre, b := bs[..|bs| - 1], bs[|bs| - 1];
      StepAllSpec(pre, clock, px, py, invulnerable);
      var r0 := StepAll(pre, clock, px, py, invulnerable);
      var s0 := Survivors(pre, clock);
      assert StepAll(bs, clock, px, py, invulnerable) == StepOne(b, r0, clock, px, py, invulnerable);
      assert Survivors(bs, clock) == s0 + (if Survives(b, clock) then [b] else []);
      StepOneSpec(s0, b, clock, px, py, invulnerable);
    }
  }

  /** One turn of the loop keeps the statement for the survivors so far. */
  lemma StepOneSpec(s0: seq<Bullet>, b: Bullet, clock: int, px: real, py: real, invulnerable: bool)
    ensures var r0 := UpdateSpec(s0, px, py, invulnerable);
            StepOne(b, r0, clock, px, py, invulnerable)
              == UpdateSpec(s0 + (if Survives(b, clock) then [b] else []), px, py, invulnerable)
  {
    if !Survives(b, clock) {
      assert s0 + [] == s0;
    } else if !invulnerable && FirstHitter(s0, px, py) < |s0| {
      AppendAfterHit(s0, b, px, py);
    } else if !invulnerable && HitsPlayer(b, px, py) {
      AppendHitter(s0, b, px, py);
    } else {
      AppendMiss(s0, b, px, py, invulnerable);
    }
  }

  /** The first hurting bullet of `s0 + [b]` is that of `s0` when it has one,
      else `b` when `b` hurts. */
  lemma FirstHitterAppend(s0: seq<Bullet>, b: Bullet, px: real, py: real)
    ensures var k0 := FirstHitter(s0, px, py);
            FirstHitter(s0 + [b], px, py)
              == if k0 < |s0| then k0 else if HitsPlayer(b, px, py) then |s0| else |s0| + 1
  {
    assert (s0 + [b])[..|s0|] == s0;
  }

  /** A bullet behind an earlier hit moves on behind the others. */
  lemma AppendAfterHit(s0: seq<Bullet>, b: Bullet, px: real, py: real)
    requires FirstHitter(s0, px, py) < |s0|
    ensures UpdateSpec(s0 + [b], px, py, false) == (UpdateSpec(s0, px, py, false).0 + [Moved(b)], true)
  {
    var s, k := s0 + [b], FirstHitter(s0, px, py);
    FirstHitterAppend(s0, b, px, py);
    var rest := s0[..k] + s0[k + 1..];
    DropBeforeAppend(s0, b, k);
    MapAppend(rest, [b], Moved);
    assert Map([b], Moved) == [Moved(b)];
  }

  /** Taking out an element before the end commutes with appending one. */
  lemma DropBeforeAppend(s0: seq<Bullet>, b: Bullet, k: nat)
    requires k < |s0|
    ensures (s0 + [b])[..k] + (s0 + [b])[k + 1..] == (s0[..k] + s0[k + 1..]) + [b]
  {
    assert (s0 + [b])[..k] == s0[..k];
    assert (s0 + [b])[k + 1..] == s0[k + 1..] + [b];
  }

  /** The first hurting bullet is consumed and every earlier one moves on. */
  lemma AppendHitter(s0: seq<Bullet>, b: Bullet, px: real, py: real)
    requires FirstHitter(s0, px, py) == |s0| && HitsPlayer(b, px, py)
    ensures UpdateSpec(s0 + [b], px, py, false) == (Map(s0, Moved), true)
  {
    var s := s0 + [b];
    FirstHitterAppend(s0, b, px, py);
    assert s[..|s0|] + s[|s0| + 1..] == s0;
  }

  /** With no hit so far and none from `b`, `b` moves on behind the others. */
  lemma AppendMiss(s0: seq<Bullet>, b: Bullet, px: real, py: real, invulnerable: bool)
    requires invulnerable || (FirstHitter(s0, px, py) == |s0| && !HitsPlayer(b, px, py))
    ensures UpdateSpec(s0 + [b], px, py, invulnerable) == (Map(s0, Moved) + [Moved(b)], false)
  {
    FirstHitterAppend(s0, b, px, py);
    MapAppend(s0, [b], Moved);
    assert Map([b], Moved) == [Moved(b)];
  }

  // ---------------------------------------------------------------- attack shapes

  /** Stage 1, pattern A: six columns of code rain falling from the top. */
  function RainDrop(now: int, i: nat): Bullet
  {
    Bullet(BulletId(Rain, now, i, 0), BoxX + (i as real + 0.5) * (BoxWidth / 6.0) - 4.0, BoxY - 14.0,
           0.0, 3.0, 8.0, 16.0, None, false)
  }

  function RainVolley(now: int): (r: seq<Bullet>)
    ensures |r| == 6
  {
    seq(6, i requires 0 <= i < 6 => RainDrop(now, i))
  }

  /** Stage 1, pattern B: in each of four rows one bullet from each side. */
  function Diagonal(now: int, r: nat, fromLeft: bool): Bullet
  {
    var rowY := BoxY + (r as real + 0.5) * (BoxHeight / 4.0);
    var up := if r % 2 == 0 then 1.0 else -1.0;
    if fromLeft then Bullet(BulletId(DiagL, now, r, 0), BoxX - 14.0, rowY, 3.1, up * 1.3, 10.0, 16.0, None, false)
    else Bullet(BulletId(DiagR, now, r, 0), BoxX + BoxWidth + 4.0, rowY, -3.1, -up * 1.3, 10.0, 16.0, None, false)
  }

  function Diagonals(now: int, rows: nat): (r: seq<Bullet>)
    ensures |r| == 2 * rows
  {
    if rows == 0 then [] else Diagonals(now, rows - 1) + [Diagonal(now, rows - 1, true), Diagonal(now, rows - 1, false)]
  }

  /** Bars (stage 1, five segments) and nets (stage 2, six segments): three
      rows of segments sweeping right, each row with one segment left out. */
  function Segments(net: bool): nat
  {
    if net then 6 else 5
  }

  function Segment(net: bool, now: int, r: nat, s: nat): Bullet
  {
    var segWidth := BoxWidth / (Segments(net) as real);
    var y := BoxY + (r as real + 0.5) * (BoxHeight / 3.0) - 5.0;
    Bullet(BulletId(if net then Net else Bar, now, r, s), BoxX - segWidth + (s as real) * segWidth, y,
           if net then 3.7 else 3.3, 0.0, segWidth * (if net then 1.25 else 1.3), 10.0, None, false)
  }

  /** The segments before `n` of row `r`, leaving out `gap`. */
  function GapRow(net: bool, now: int, r: nat, gap: int, n: nat): (row: seq<Bullet>)
    ensures |row| == if 0 <= gap < n then n - 1 else n
    ensures forall k :: 0 <= k < |row| ==> row[k].id.b != gap
  {
    if n == 0 then []
    else GapRow(net, now, r, gap, n - 1) + (if n - 1 != gap then [Segment(net, now, r, n - 1)] else [])
  }

  /** Every segment but the gap is present. */
  lemma {:induction false} GapRowCovers(net: bool, now: int, r: nat, gap: int, n: nat, s: nat)
    requires s < n && s != gap
    ensures Segment(net, now, r, s) in GapRow(net, now, r, gap, n)
  {
    if s < n - 1 {
      GapRowCovers(net, now, r, gap, n - 1, s);
    }
  }

  /** The gap index `Math.floor(Math.random() * segments)`. */
  function GapIndex(draw: real, segments: nat): (g: int)
    ensures 0.0 <= draw < 1.0 && segments > 0 ==> 0 <= g < segments
  {
    var g := (draw * segments as real).Floor;
    assert 0.0 <= draw < 1.0 && segments > 0 ==> draw * segments as real < segments as real;
    g
  }

  /** The first `rows` rows, row `r` with the gap drawn by `draws[r]`. */
  function GapRows(net: bool, now: int, draws: seq<real>, rows: nat): seq<Bullet>
    requires rows <= |draws|
  {
    if rows == 0 then []
    else GapRows(net, now, draws, rows - 1)
         + GapRow(net, now, rows - 1, GapIndex(draws[rows - 1], Segments(net)), Segments(net))
  }

  /** Each row lacks exactly one segment: 4 of 5 bars, 5 of 6 nets. */
  lemma {:induction false} GapRowsSize(net: bool, now: int, draws: seq<real>, rows: nat)
    requires rows <= |draws| && forall k :: 0 <= k < |draws| ==> 0.0 <= draws[k] < 1.0
    ensures |GapRows(net, now, draws, rows)| == rows * (Segments(net) - 1)
  {
    if rows > 0 {
      GapRowsSize(net, now, draws, rows - 1);
    }
  }

  /** Stage 2, pattern D: five columns of 3 or 4 packets rising with a random drift. */
  function Packet(now: int, c: nat, i: nat, draw: real): Bullet
  {
    Bullet(BulletId(Rise, now, c, i), BoxX + (c as real + 0.5) * (BoxWidth / 5.0) - 5.0,
           BoxY + BoxHeight + 20.0 + (i as real) * 18.0, (draw - 0.5) * 0.6, -3.7, 10.0, 18.0, None, false)
  }

  function PacketCount(c: nat): nat
  {
    3 + c % 2
  }

  function PacketColumns(now: int, drifts: seq<seq<real>>, cols: nat): seq<Bullet>
    requires cols <= |drifts| && forall c :: 0 <= c < cols ==> |drifts[c]| >= PacketCount(c)
  {
    if cols == 0 then []
    else PacketColumns(now, drifts, cols - 1)
         + seq(PacketCount(cols - 1), i requires 0 <= i < PacketCount(cols - 1) => Packet(now, cols - 1, i, drifts[cols - 1][i]))
  }

  /** Pattern D fires 3 + 4 + 3 + 4 + 3 packets. */
  lemma PacketVolleySize(now: int, drifts: seq<seq<real>>)
    requires |drifts| >= 5 && forall c :: 0 <= c < 5 ==> |drifts[c]| >= PacketCount(c)
    ensures |PacketColumns(now, drifts, 5)| == 17
  {
    assert |PacketColumns(now, drifts, 1)| == 3;
    assert |PacketColumns(now, drifts, 2)| == 7;
    assert |PacketColumns(now, drifts, 3)| == 10;
    assert |PacketColumns(now, drifts, 4)| == 14;
  }

  /** Stage 2, pattern F: line pattern ". .. ... .. ." rising from below or crashing from above. */
  const LinePattern: seq<nat> := [1, 2, 3, 2, 1]

  function Storm(top: bool, now: int, c: nat, i: nat): Bullet
  {
    var colX := BoxX + (c as real + 0.5) * (BoxWidth / 5.0) - 5.0;
    if top then Bullet(BulletId(TopF, now, c, i), colX, BoxY - 24.0 - (i as real) * 16.0, 0.0, 3.9, 10.0, 18.0, None, false)
    else Bullet(BulletId(RiseF, now, c, i), colX, BoxY + BoxHeight + 22.0 + (i as real) * 16.0, 0.0, -4.0, 10.0, 18.0, None, false)
  }

  function StormColumns(top: bool, now: int, cols: nat): (r: seq<Bullet>)
    requires cols <= |LinePattern|
  {
    if cols == 0 then []
    else StormColumns(top, now, cols - 1)
         + seq(LinePattern[cols - 1], i requires 0 <= i < LinePattern[cols - 1] => Storm(top, now, cols - 1, i))
  }

  lemma StormSize(top: bool, now: int)
    ensures |StormColumns(top, now, 5)| == 9
  {
    assert |StormColumns(top, now, 1)| == 1;
    assert |StormColumns(top, now, 2)| == 3;
    assert |StormColumns(top, now, 3)| == 6;
    assert |StormColumns(top, now, 4)| == 8;
  }

  /** The columns that get a warning and a laser: every column but the safe
      one whose own draw is not below the skip chance. */
  function LaserColumns(safe: int, skips: seq<real>, chance: real, n: nat): (cs: seq<nat>)
    requires n <= |skips|
    ensures forall k :: 0 <= k < |cs| ==> cs[k] < n && cs[k] != safe
  {
    if n == 0 then []
    else LaserColumns(safe, skips, chance, n - 1)
         + (if n - 1 != safe && !(skips[n - 1] < chance) then [n - 1] else [])
  }

  /** A column fires exactly when it is not the safe one and its draw allows it. */
  lemma {:induction false} LaserColumnsMembers(safe: int, skips: seq<real>, chance: real, n: nat, c: nat)
    requires n <= |skips|
    ensures c in LaserColumns(safe, skips, chance, n) <==> c < n && c != safe && !(skips[c] < chance)
  {
    if n > 0 {
      LaserColumnsMembers(safe, skips, chance, n - 1, c);
    }
  }

  /** `heavy` selects pattern F's five columns and 800 ms lasers over pattern E's four and 650 ms. */
  function LaserCount(heavy: bool): nat
  {
    if heavy then 5 else 4
  }

  function WarningBar(heavy: bool, now: int, c: nat): Bullet
  {
    var colWidth := BoxWidth / (LaserCount(heavy) as real);
    Bullet(BulletId(if heavy then WarningF else Warning, now, c, 0), BoxX + (c as real) * colWidth + 4.0, BoxY,
           0.0, 0.0, colWidth - 8.0, BoxHeight, Some(Life(350, now)), true)
  }

  function LaserBeam(heavy: bool, now: int, c: nat): Bullet
  {
    var colWidth := BoxWidth / (LaserCount(heavy) as real);
    Bullet(BulletId(if heavy then LaserF else Laser, now, c, 0), BoxX + (c as real) * colWidth + 4.0, BoxY,
           0.0, 0.0, colWidth - 8.0, BoxHeight, Some(Life(if heavy then 800 else 650, now + LaserDelay)), false)
  }

  /** The random draws one attack may use: a gap draw per row, a drift draw
      per packet, the safe column draw and a skip draw per laser column. */
  datatype Draws = Draws(rows: seq<real>, drifts: seq<seq<real>>, safe: real, skips: seq<real>)

  predicate Unit(r: real)
  {
    0.0 <= r < 1.0
  }

  predicate ValidDraws(d: Draws)
  {
    && |d.rows| >= 3 && (forall k :: 0 <= k < |d.rows| ==> Unit(d.rows[k]))
    && |d.drifts| >= 5 && (forall c :: 0 <= c < 5 ==> |d.drifts[c]| >= PacketCount(c))
    && Unit(d.safe)
    && |d.skips| >= 5
  }

  /** A pending `setTimeout` callback. */
  datatype Timer = LaserTimer(due: int, lasers: seq<Bullet>) | InvulnerabilityEnds(due: int)

  /** The warnings fired now and the timer that fires the lasers: none when no column fires. */
  function LaserVolley(heavy: bool, now: int, d: Draws): (w: (seq<Bullet>, seq<Timer>))
    requires ValidDraws(d)
    ensures |w.1| <= 1 && (w.0 == [] <==> w.1 == [])
    ensures w.1 != [] ==> w.1[0].LaserTimer? && w.1[0].due == now + LaserDelay && |w.1[0].lasers| == |w.0|
    ensures forall k :: 0 <= k < |w.0| ==> w.0[k].isWarning && w.0[k].life == Some(Life(350, now))
  {
    var cols := LaserColumns(GapIndex(d.safe, LaserCount(heavy)), d.skips, if heavy then 0.3 else 0.4, LaserCount(heavy));
    var warnings := Map(cols, (c: nat) => WarningBar(heavy, now, c));
    var lasers := Map(cols, (c: nat) => LaserBeam(heavy, now, c));
    (warnings, if warnings == [] then [] else [LaserTimer(now + LaserDelay, lasers)])
  }

  /** The attack `spawnAttack` fires for the stage and its progress `t`: the
      bullets added now and the timers set. */
  function Attack(stage: nat, t: real, now: int, d: Draws): (a: (seq<Bullet>, seq<Timer>))
    requires ValidDraws(d)
    ensures stage == 1 || t < 0.35 ==> a.1 == []
    ensures |a.1| <= 1
  {
    if stage == 1 then
      if t < 0.35 then (RainVolley(now), [])
      else if t < 0.7 then (Diagonals(now, 4), [])
      else (GapRows(false, now, d.rows, 3), [])
    else if t < 0.35 then (PacketColumns(now, d.drifts, 5), [])
    else if t < 0.7 then
      var lv := LaserVolley(false, now, d);
      (GapRows(true, now, d.rows, 3) + lv.0, lv.1)
    else
      var lv := LaserVolley(true, now, d);
      (StormColumns(false, now, 5) + StormColumns(true, now, 5) + lv.0, lv.1)
  }

  /** The safe column never gets a warning or a laser, and every warning
      has its laser in the same column. */
  lemma SafeColumnStaysSafe(heavy: bool, now: int, d: Draws)
    requires ValidDraws(d)
    ensures var safe := GapIndex(d.safe, LaserCount(heavy));
            var (warnings, timers) := LaserVolley(heavy, now, d);
            && 0 <= safe < LaserCount(heavy)
            && (forall k :: 0 <= k < |warnings| ==> warnings[k].id.a != safe && warnings[k].isWarning)
            && (warnings == [] <==> timers == [])
            && (timers != [] ==>
                  && |timers[0].lasers| == |warnings|
                  && (forall k :: 0 <= k < |warnings| ==>
                        timers[0].lasers[k].id.a == warnings[k].id.a && timers[0].lasers[k].x == warnings[k].x
                        && !timers[0].lasers[k].isWarning))
  {
  }

  /** A laser enters the fight `LaserDelay` ms later, its life counted from then. */
  function Reborn(b: Bullet, t: int): Bullet
  {
    if b.life.Some? then b.(life := Some(Life(b.life.value.lifeMs, t))) else b
  }

  // ---------------------------------------------------------------- the loops that build attacks

  method BuildRain(now: int) returns (bs: seq<Bullet>)
    ensures bs == RainVolley(now)
  {
    bs := [];
    for i := 0 to 6
      invariant bs == seq(i, k requires 0 <= k < i => RainDrop(now, k))
    {
      bs := bs + [RainDrop(now, i)];
    }
  }

  method BuildDiagonals(now: int) returns (bs: seq<Bullet>)
    ensures bs == Diagonals(now, 4)
  {
    bs := [];
    for r := 0 to 4
      invariant bs == Diagonals(now, r)
    {
      bs := bs + [Diagonal(now, r, true)];
      bs := bs + [Diagonal(now, r, false)];
    }
  }

  method BuildGapRows(net: bool, now: int, draws: seq<real>) returns (bs: seq<Bullet>)
    requires |draws| >= 3
    ensures bs == GapRows(net, now, draws, 3)
  {
    bs := [];
    for r := 0 to 3
      invariant bs == GapRows(net, now, draws, r)
    {
      var segments := Segments(net);
      var gapIndex := GapIndex(draws[r], segments);
      for s := 0 to segments
        invariant bs == GapRows(net, now, draws, r) + GapRow(net, now, r, gapIndex, s)
      {
        if s != gapIndex {
          bs := bs + [Segment(net, now, r, s)];
        }
      }
    }
  }

  method BuildPackets(now: int, drifts: seq<seq<real>>) returns (bs: seq<Bullet>)
    requires |drifts| >= 5 && forall c :: 0 <= c < 5 ==> |drifts[c]| >= PacketCount(c)
    ensures bs == PacketColumns(now, drifts, 5)
  {
    bs := [];
    for c := 0 to 5
      invariant bs == PacketColumns(now, drifts, c)
    {
      var count := PacketCount(c);
      for i := 0 to count
        invariant bs == PacketColumns(now, drifts, c) + seq(i, k requires 0 <= k < i => Packet(now, c, k, drifts[c][k]))
      {
        bs := bs + [Packet(now, c, i, drifts[c][i])];
      }
    }
  }

  method BuildStorm(top: bool, now: int) returns (bs: seq<Bullet>)
    ensures bs == StormColumns(top, now, 5)
  {
    bs := [];
    for c := 0 to 5
      invariant bs == StormColumns(top, now, c)
    {
      var count := LinePattern[c];
      for i := 0 to count
        invariant bs == StormColumns(top, now, c) + seq(i, k requires 0 <= k < i => Storm(top, now, c, k))
      {
        bs := bs + [Storm(top, now, c, i)];
      }
    }
  }

  method BuildLasers(heavy: bool, now: int, d: Draws) returns (warnings: seq<Bullet>, timers: seq<Timer>)
    requires ValidDraws(d)
    ensures (warnings, timers) == LaserVolley(heavy, now, d)
  {
    var columns := LaserCount(heavy);
    var safeColumn := GapIndex(d.safe, columns);
    var chance := if heavy then 0.3 else 0.4;
    warnings := [];
    var lasers := [];
    for c := 0 to columns
      invariant warnings == Map(LaserColumns(safeColumn, d.skips, chance, c), (c: nat) => WarningBar(heavy, now, c))
      invariant lasers == Map(LaserColumns(safeColumn, d.skips, chance, c), (c: nat) => LaserBeam(heavy, now, c))
    {
      if c == safeColumn {
        continue;
      }
      if d.skips[c] < chance {
        continue;
      }
      warnings := warnings + [WarningBar(heavy, now, c)];
      lasers := lasers + [LaserBeam(heavy, now, c)];
    }
    timers := if warnings == [] then [] else [LaserTimer(now + LaserDelay, lasers)];
  }

  /** `spawnAttack`, built by its loops. */
  method SpawnAttack(stage: nat, t: real, now: int, d: Draws) returns (fired: seq<Bullet>, timers: seq<Timer>)
    requires ValidDraws(d)
    ensures (fired, timers) == Attack(stage, t, now, d)
  {
    timers := [];
    if stage == 1 {
      if t < 0.35 {
        fired := BuildRain(now);
      } else if t < 0.7 {
        fired := BuildDiagonals(now);
      } else {
        fired := BuildGapRows(false, now, d.rows);
      }
    } else if t < 0.35 {
      fired := BuildPackets(now, d.drifts);
    } else if t < 0.7 {
      var nets := BuildGapRows(true, now, d.rows);
      var warnings;
      warnings, timers := BuildLasers(false, now, d);
      fired := nets + warnings;
    } else {
      var rising := BuildStorm(false, now);
      var crashing := BuildStorm(true, now);
      var warnings;
      warnings, timers := BuildLasers(true, now, d);
      fired := rising + crashing + warnings;
    }
  }

  /** The update loop of one frame: each bullet is dropped when expired or
      outside the margin, consumed when it is the frame's first hit, and
      otherwise kept at its new position. */
  method UpdateBullets(prev: seq<Bullet>, clock: int, px: real, py: real, invulnerable: bool)
    returns (updated: seq<Bullet>, tookHit: bool)
    ensures (updated, tookHit) == StepAll(prev, clock, px, py, invulnerable)
  {
    updated := [];
    tookHit := false;
    for i := 0 to |prev|
      invariant (updated, tookHit) == StepAll(prev[..i], clock, px, py, invulnerable)
    {
      assert prev[..i + 1][..i] == prev[..i];
      var b := prev[i];
      var nx := b.x + b.vx;
      var ny := b.y + b.vy;
      if b.life.Some? && clock - b.life.value.bornAt > b.life.value.lifeMs {
        continue;
      }
      if nx + b.width < BoxX - Margin || nx > BoxX + BoxWidth + Margin
         || ny + b.height < BoxY - Margin || ny > BoxY + BoxHeight + Margin {
        continue;
      }
      var collide := !invulnerable && !b.isWarning && !tookHit
                     && nx < px + PlayerSize && nx + b.width > px && ny < py + PlayerSize && ny + b.height > py;
      if collide {
        tookHit := true;
        continue;
      }
      updated := updated + [b.(x := nx, y := ny)];
    }
    assert prev[..|prev|] == prev;
  }

  /** The attack a frame fires: one when the interval has passed since the last. */
  function Fired(stage: nat, lastAttack: int, now: int, elapsed: int, d: Draws): (seq<Bullet>, seq<Timer>)
    requires ValidDraws(d)
  {
    var t := StageT(stage, elapsed);
    if now - lastAttack >= AttackInterval(stage, t) then Attack(stage, t, now, d) else ([], [])
  }

  /** What a frame inside the stage's time makes of the fight: the phase,
      the health, the time of the last attack, the bullets, invulnerability
      and the pending timers, with the player already at (px, py). The health
      follows the clock; while invulnerable the player takes no hit and every
      surviving bullet moves on; otherwise a hit consumes one bullet and
      starts a 400 ms invulnerability. */
  function FightStep(stage: nat, lastAttack: int, bullets: seq<Bullet>, invulnerable: bool, timers: seq<Timer>,
                     now: int, elapsed: int, px: real, py: real, d: Draws)
    : (r: (Phase, int, int, seq<Bullet>, bool, seq<Timer>))
    requires ValidDraws(d)
    ensures r.0 == Playing && (r.2 == now || r.2 == lastAttack)
  {
    var f := Fired(stage, lastAttack, now, elapsed, d);
    var step := StepAll(bullets + f.0, now, px, py, invulnerable);
    (Playing, Health(stage, StageT(stage, elapsed)),
     if now - lastAttack >= AttackInterval(stage, StageT(stage, elapsed)) then now else lastAttack,
     step.0, invulnerable || step.1,
     timers + f.1 + (if step.1 then [InvulnerabilityEnds(now + InvulnerableMs)] else []))
  }

  /** What `FightStep` promises: the health follows the clock, the attack
      time moves only to `now`, and the bullets and timers follow the update
      loop's promise. */
  lemma FightStepSpec(stage: nat, lastAttack: int, bullets: seq<Bullet>, invulnerable: bool, timers: seq<Timer>,
                      now: int, elapsed: int, px: real, py: real, d: Draws)
    requires ValidDraws(d)
    ensures var r := FightStep(stage, lastAttack, bullets, invulnerable, timers, now, elapsed, px, py, d);
            var f := Fired(stage, lastAttack, now, elapsed, d);
            var s := Survivors(bullets + f.0, now);
            var u := UpdateSpec(s, px, py, invulnerable);
            && r.0 == Playing
            && r.1 == Health(stage, StageT(stage, elapsed))
            && (r.2 == now || r.2 == lastAttack)
            && r.3 == u.0
            && r.4 == (invulnerable || u.1)
            && r.5 == timers + f.1 + (if u.1 then [InvulnerabilityEnds(now + InvulnerableMs)] else [])
  {
    var f := Fired(stage, lastAttack, now, elapsed, d);
    StepAllSpec(bullets + f.0, now, px, py, invulnerable);
  }

  // ---------------------------------------------------------------- the page

  datatype Phase = Intro | Playing | Midbreak | Win

  const StartX := BoxX + BoxWidth / 2.0 - PlayerSize / 2.0
  const StartY := BoxY + BoxHeight / 2.0 - PlayerSize / 2.0

  class FinalFightPage {
    var gameState: Phase
    var stage: nat
    var stageStart: int
    var lastAttack: int
    var x: real
    var y: real
    var bossHealth: int
    var bullets: seq<Bullet>
    var invulnerable: bool
    var keys: set<string>
    var timers: seq<Timer>

    /** The player stays in the box, the stage is 1 or 2, and the boss's
        health stays in 0..100, never below 50 in stage 1. */
    ghost predicate Valid()
      reads this
    {
      && BoxX <= x <= MaxX && BoxY <= y <= MaxY
      && (stage == 1 || stage == 2)
      && 0 <= bossHealth <= 100
      && (stage == 1 ==> 50 <= bossHealth)
    }

    constructor ()
      ensures Valid()
      ensures gameState == Intro && stage == 1 && stageStart == 0 && lastAttack == 0
      ensures x == 391.0 && y == 301.0 && bossHealth == 100 && bullets == []
      ensures !invulnerable && keys == {} && timers == []
    {
      gameState := Intro;
      stage := 1;
      stageStart := 0;
      lastAttack := 0;
      x, y := StartX, StartY;
      bossHealth := 100;
      bullets := [];
      invulnerable := false;
      keys := {};
      timers := [];
    }

    /** `startFightStage1` (Enter on the intro, its button, and replay). */
    method StartStage1(now: int)
      requires Valid()
      modifies this`stage, this`stageStart, this`lastAttack, this`bullets, this`x, this`y, this`invulnerable, this`gameState, this`bossHealth
      ensures Valid()
      ensures gameState == Playing && stage == 1 && stageStart == now && lastAttack == now
      ensures bullets == [] && x == StartX && y == StartY && bossHealth == 100 && !invulnerable
    {
      stage := 1;
      stageStart := now;
      lastAttack := now;
      bullets := [];
      x, y := StartX, StartY;
      bossHealth := 100;
      invulnerable := false;
      gameState := Playing;
    }

    /** `startFightStage2` (any key on the break, or its button): the health is kept. */
    method StartStage2(now: int)
      requires Valid()
      modifies this`stage, this`stageStart, this`lastAttack, this`bullets, this`x, this`y, this`invulnerable, this`gameState
      ensures Valid()
      ensures gameState == Playing && stage == 2 && stageStart == now && lastAttack == now
      ensures bullets == [] && x == StartX && y == StartY && !invulnerable
    {
      stage := 2;
      stageStart := now;
      lastAttack := now;
      bullets := [];
      x, y := StartX, StartY;
      invulnerable := false;
      gameState := Playing;
    }

    /** The keydown listener: on the break any key but a modifier starts stage 2
        (and is not recorded); otherwise the key is recorded, and Enter on the
        intro starts stage 1. */
    method KeyDown(key: string, now: int)
      requires Valid()
      modifies this`keys, this`stage, this`stageStart, this`lastAttack, this`bullets, this`x, this`y, this`invulnerable, this`gameState, this`bossHealth
      ensures Valid()
      ensures var modifier := key in ["Shift", "Meta", "Alt", "Control"];
              && (old(gameState) == Midbreak && modifier ==>
                    gameState == Midbreak && keys == old(keys) && stage == old(stage)
                    && stageStart == old(stageStart) && bullets == old(bullets) && bossHealth == old(bossHealth)
                    && x == old(x) && y == old(y) && lastAttack == old(lastAttack) && invulnerable == old(invulnerable))
              && (old(gameState) == Midbreak && !modifier ==>
                    gameState == Playing && stage == 2 && stageStart == now && lastAttack == now && keys == old(keys)
                    && bossHealth == old(bossHealth) && bullets == [] && x == StartX && y == StartY && !invulnerable)
      ensures old(gameState) != Midbreak ==> keys == old(keys) + {key}
      ensures old(gameState) == Intro && key == "Enter" ==>
                gameState == Playing && stage == 1 && stageStart == now && lastAttack == now && bossHealth == 100
                && bullets == [] && x == StartX && y == StartY && !invulnerable
      ensures old(gameState) != Midbreak && !(old(gameState) == Intro && key == "Enter") ==>
                gameState == old(gameState) && stage == old(stage) && stageStart == old(stageStart)
                && bullets == old(bullets) && bossHealth == old(bossHealth) && x == old(x) && y == old(y)
                && lastAttack == old(lastAttack) && invulnerable == old(invulnerable)
    {
      if gameState == Midbreak {
        if key !in ["Shift", "Meta", "Alt", "Control"] {
          StartStage2(now);
        }
        return;
      }
      keys := keys + {key};
      if gameState == Intro && key == "Enter" {
        StartStage1(now);
      }
    }

    method KeyUp(key: string)
      requires Valid()
      modifies this`keys
      ensures Valid() && keys == old(keys) - {key}
    {
      keys := keys - {key};
    }

    /** One animation frame while playing. The player moves first; a stage
        whose time is up ends the frame on the break or the win. Otherwise the
        health follows the clock, an attack fires when the interval has
        passed, and the bullets are updated against the new position. */
    method Frame(now: int, d: Draws)
      requires Valid() && gameState == Playing && ValidDraws(d)
      modifies this`x, this`y, this`gameState, this`bossHealth, this`lastAttack, this`bullets, this`invulnerable, this`timers
      ensures Valid()
      ensures (x, y) == MovePlayer(old(x), old(y), old(keys))
      ensures var elapsed := now - old(stageStart);
              && (old(stage) == 1 && elapsed >= StageOneDuration ==>
                    gameState == Midbreak && bullets == old(bullets) && bossHealth == old(bossHealth)
                    && lastAttack == old(lastAttack) && invulnerable == old(invulnerable) && timers == old(timers))
              && (old(stage) == 2 && elapsed >= StageTwoDuration ==>
                    gameState == Win && bullets == old(bullets) && bossHealth == old(bossHealth)
                    && lastAttack == old(lastAttack) && invulnerable == old(invulnerable) && timers == old(timers))
              && (elapsed < Duration(old(stage)) ==>
                    FightStep(old(stage), old(lastAttack), old(bullets), old(invulnerable), old(timers),
                              now, elapsed, x, y, d)
                    == (Playing, bossHealth, lastAttack, bullets, invulnerable, timers))
    {
      var p := MovePlayer(x, y, keys);
      x, y := p.0, p.1;
      var elapsed := now - stageStart;
      if stage == 1 && elapsed >= StageOneDuration {
        gameState := Midbreak;
        return;
      }
      if stage == 2 && elapsed >= StageTwoDuration {
        gameState := Win;
        return;
      }
      Fight(now, elapsed, d);
    }

    /** The part of a frame after the stage check. */
    method Fight(now: int, elapsed: int, d: Draws)
      requires Valid() && gameState == Playing && ValidDraws(d)
      modifies this`bossHealth, this`lastAttack, this`bullets, this`invulnerable, this`timers
      ensures Valid()
      ensures FightStep(old(stage), old(lastAttack), old(bullets), old(invulnerable), old(timers),
                        now, elapsed, x, y, d)
              == (gameState, bossHealth, lastAttack, bullets, invulnerable, timers)
    {
      SpawnPhase(now, elapsed, d);
      BulletPhase(now);
    }

    /** The clock's health and, once the interval has passed, the attack:
        its bullets and timers are appended. */
    method SpawnPhase(now: int, elapsed: int, d: Draws)
      requires Valid() && ValidDraws(d)
      modifies this`bossHealth, this`lastAttack, this`bullets, this`timers
      ensures Valid()
      ensures var t := StageT(stage, elapsed);
              var f := Fired(stage, old(lastAttack), now, elapsed, d);
              && bossHealth == Health(stage, t)
              && lastAttack == (if now - old(lastAttack) >= AttackInterval(stage, t) then now else old(lastAttack))
              && bullets == old(bullets) + f.0
              && timers == old(timers) + f.1
    {
      var t := StageT(stage, elapsed);
      bossHealth := Health(stage, t);
      var interval := AttackInterval(stage, t);
      if now - lastAttack >= interval {
        var fired, newTimers := SpawnAttack(stage, t, now, d);
        lastAttack := now;
        bullets := bullets + fired;
        timers := timers + newTimers;
      } else {
        assert bullets + [] == bullets && timers + [] == timers;
      }
    }

    /** The bullet update against the player's position; a hit starts the
        400 ms invulnerability. */
    method BulletPhase(now: int)
      requires Valid()
      modifies this`bullets, this`invulnerable, this`timers
      ensures Valid()
      ensures var step := StepAll(old(bullets), now, x, y, old(invulnerable));
              && bullets == step.0
              && invulnerable == (old(invulnerable) || step.1)
              && timers == old(timers) + (if step.1 then [InvulnerabilityEnds(now + InvulnerableMs)] else [])
    {
      var updated, tookHit := UpdateBullets(bullets, now, x, y, invulnerable);
      bullets := updated;
      if tookHit {
        invulnerable := true;
        timers := timers + [InvulnerabilityEnds(now + InvulnerableMs)];
      } else {
        assert timers + [] == timers;
      }
    }

    /** A timer callback coming due at time `now`: the chosen pending timer `k` runs. */
    method FireTimer(k: nat, now: int)
      requires Valid() && k < |timers|
      modifies this`timers, this`bullets, this`invulnerable
      ensures Valid()
      ensures timers == old(timers)[..k] + old(timers)[k + 1..]
      ensures match old(timers)[k]
              case LaserTimer(_, lasers) =>
                bullets == old(bullets) + Map(lasers, (b: Bullet) => Reborn(b, now)) && invulnerable == old(invulnerable)
              case InvulnerabilityEnds(_) =>
                bullets == old(bullets) && !invulnerable
    {
      var t := timers[k];
      timers := timers[..k] + timers[k + 1..];
      match t
      case LaserTimer(_, lasers) =>
        bullets := bullets + Map(lasers, (b: Bullet) => Reborn(b, now));
      case InvulnerabilityEnds(_) =>
        invulnerable := false;
    }
  }
}
