/** The three-level "pick the right item" game (frontend/src/pages/game2.jsx):
    each level opens with a lesson page, then the player gets one pick among
    the level's items; a right first pick is worth 10 XP. */
module SpotTheThreat {

  /** One level: its name, its lesson page, and whether each item is the right one. */
  datatype Level = Level(name: string, info: string, objects: seq<bool>)

  const Levels: seq<Level> := [
    Level("Bots", "bots", [true, false]),
    Level("Oversharing", "oversharing", [true, false, false, false]),
    Level("Impersonation", "impersonation", [false, false, true, false])
  ]

  const XpPerLevel := 10

  /** The text above the items: the prompt, or the verdict on the pick. */
  datatype Message = ClickTheCorrectItem | CorrectNextLevel | WrongTryNext

  function CountTrue(s: seq<bool>): (n: nat)
    ensures n <= |s|
  {
    if s == [] then 0 else (if s[0] then 1 else 0) + CountTrue(s[1..])
  }

  /** Recording one more pick adds one exactly when the pick is right. */
  lemma {:induction false} CountTrueAppend(s: seq<bool>, b: bool)
    ensures CountTrue(s + [b]) == CountTrue(s) + (if b then 1 else 0)
  {
    if s != [] {
      assert (s + [b])[1..] == s[1..] + [b];
      CountTrueAppend(s[1..], b);
    }
  }

  /** Every level has exactly one right item. */
  lemma OneCorrectPerLevel(k: nat)
    requires k < |Levels|
    ensures CountTrue(Levels[k].objects) == 1
  {
    var o := Levels[k].objects;
    if |o| == 4 {
      assert CountTrue(o[3..]) == if o[3] then 1 else 0 by { assert o[3..][1..] == []; }
      assert o[2..][1..] == o[3..] && o[1..][1..] == o[2..] && o[1..] == o[1..];
    } else {
      assert o[1..][1..] == [];
    }
  }

  class SpotTheThreatGame {
    var levelIndex: nat
    var xp: nat
    var message: Message
    var levelCompleted: bool
    var showPreInfo: bool
    /** The verdict of every pick made so far, level by level. */
    ghost var picks: seq<bool>

    /** One pick per finished level plus the current one once picked, and
        10 XP for each right pick. */
    ghost predicate Valid()
      reads this
    {
      && levelIndex <= |Levels|
      && |picks| == levelIndex + (if levelCompleted then 1 else 0)
      && (levelCompleted ==> levelIndex < |Levels|)
      && xp == XpPerLevel * CountTrue(picks)
    }

    /** Past the last level: every level has been answered and none is
        waiting for its Next button. */
    predicate GameComplete()
      reads this
      ensures Valid() ==> (GameComplete() <==> |picks| == |Levels| && !levelCompleted)
    {
      levelIndex >= |Levels|
    }

    /** The page after its entry effect has run for the first level. */
    constructor ()
      ensures Valid()
      ensures levelIndex == 0 && xp == 0 && message == ClickTheCorrectItem
      ensures !levelCompleted && showPreInfo && picks == []
    {
      levelIndex := 0;
      xp := 0;
      message := ClickTheCorrectItem;
      levelCompleted := false;
      showPreInfo := Levels[0].info != "";
      picks := [];
    }

    /** "Done Reading": close the lesson page and show the prompt. */
    method DoneReading()
      requires Valid()
      modifies this
      ensures Valid()
      ensures !showPreInfo && message == ClickTheCorrectItem
      ensures levelIndex == old(levelIndex) && xp == old(xp) && levelCompleted == old(levelCompleted)
      ensures picks == old(picks)
    {
      showPreInfo := false;
      message := ClickTheCorrectItem;
    }

    /** `handleClick` on item `k` of the current level (items are drawn only
        while the game is unfinished): ignored behind the lesson page and
        after the level's pick; otherwise the pick is judged and counted. */
    method Click(k: nat)
      requires Valid()
      requires !GameComplete() && k < |Levels[levelIndex].objects|
      modifies this
      ensures Valid()
      ensures levelIndex == old(levelIndex) && showPreInfo == old(showPreInfo)
      ensures old(showPreInfo) || old(levelCompleted) ==>
                xp == old(xp) && message == old(message) && levelCompleted == old(levelCompleted)
                && picks == old(picks)
      ensures !old(showPreInfo) && !old(levelCompleted) ==>
                var right := Levels[levelIndex].objects[k];
                && levelCompleted
                && xp == old(xp) + (if right then XpPerLevel else 0)
                && message == (if right then CorrectNextLevel else WrongTryNext)
                && picks == old(picks) + [right]
    {
      if showPreInfo {
        return;
      }
      if !levelCompleted {
        var right := Levels[levelIndex].objects[k];
        if right {
          xp := xp + XpPerLevel;
        }
        message := if right then CorrectNextLevel else WrongTryNext;
        CountTrueAppend(picks, right);
        picks := picks + [right];
        levelCompleted := true;
      }
    }

    /** "Next Level" (shown once the level's pick is made): go on to the next
        level, whose entry effect resets the pick and opens its lesson page. */
    method NextLevel()
      requires Valid()
      requires levelCompleted && !showPreInfo && !GameComplete()
      modifies this
      ensures Valid()
      ensures levelIndex == old(levelIndex) + 1 && !levelCompleted
      ensures message == ClickTheCorrectItem && xp == old(xp) && picks == old(picks)
      ensures showPreInfo <==> levelIndex < |Levels| && Levels[levelIndex].info != ""
    {
      levelIndex := levelIndex + 1;
      levelCompleted := false;
      message := ClickTheCorrectItem;
      showPreInfo := levelIndex < |Levels| && Levels[levelIndex].info != "";
    }
  }

  /** No run of the game collects more than 30 XP. */
  lemma XpBound(g: SpotTheThreatGame)
    requires g.Valid()
    ensures g.xp <= XpPerLevel * |Levels|
  {
  }
}
