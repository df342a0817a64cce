/** The scam-profile game (frontend/src/pages/phishing_detection_game.jsx):
    the player clicks the parts of a fake profile that are red flags; each
    of the seven flags counts once, and finding all seven wins. */
module ScamProfile {
  import opened Js
  import opened Seqs

  const TotalFlags := 7

  /** The ids of `RED_FLAGS`, in table order. */
  const RedFlags: seq<string> := ["stock-photo", "bio-giveaway", "cashapp-comments",
                                  "short-link", "fake-proof", "new-account", "asks-id"]

  /** The message shown beside the profile: nothing yet, the reason of the
      flag just found (identified by its id), or the "already flagged" note. */
  datatype Feedback = NoFeedback | FlagReason(id: string) | AlreadyFlagged

  datatype GameState = Playing | Win

  /** The elements of a sequence without repeats number as many as its length. */
  lemma {:induction false} DistinctCard<T>(s: seq<T>)
    requires NoDuplicates(s)
    ensures |set x | x in s| == |s|
  {
    if s != [] {
      var rest := s[1..];
      assert NoDuplicates(rest) by {
        forall i, j | 0 <= i < j < |rest| ensures rest[i] != rest[j] {
          assert rest[i] == s[i + 1] && rest[j] == s[j + 1];
        }
      }
      DistinctCard(rest);
      assert s[0] !in rest by {
        forall k | 0 <= k < |rest| ensures rest[k] != s[0] {
          assert rest[k] == s[k + 1];
        }
      }
      assert (set x | x in s) == (set x | x in rest) + {s[0]} by {
        assert s == [s[0]] + rest;
      }
    }
  }

  /** A subset is no larger than the set holding it. */
  lemma {:induction false} SubsetCard<T>(a: set<T>, b: set<T>)
    requires a <= b
    ensures |a| <= |b|
    decreases |b|
  {
    if b != {} {
      var x :| x in b;
      SubsetCard(a - {x}, b - {x});
    }
  }

  /** Seven different flags out of the seven in the table are all of them:
      the win condition "seven found" means every red flag was found. */
  lemma SevenFoundMeansAll(found: seq<string>)
    requires NoDuplicates(found)
    requires forall k :: 0 <= k < |found| ==> found[k] in RedFlags
    requires |found| == TotalFlags
    ensures forall id :: id in RedFlags ==> id in found
  {
    forall id | id in RedFlags ensures id in found {
      if id !in found {
        SizeBound(found, id);
      }
    }
  }

  class ScamProfileGame {
    var foundFlags: seq<string>
    var selectedFlag: Option<string>
    var feedback: Feedback
    var gameState: GameState

    /** Each found flag is a real red flag found once, and the game is won
        exactly when all seven are found. */
    ghost predicate Valid()
      reads this
    {
      && NoDuplicates(foundFlags)
      && (forall k :: 0 <= k < |foundFlags| ==> foundFlags[k] in RedFlags)
      && (gameState == Win <==> |foundFlags| == TotalFlags)
    }

    constructor ()
      ensures Valid()
      ensures foundFlags == [] && selectedFlag == None && feedback == NoFeedback && gameState == Playing
    {
      foundFlags := [];
      selectedFlag := None;
      feedback := NoFeedback;
      gameState := Playing;
    }

    /** `handleFlagClick`: an unknown id is ignored; a flag found before is
        selected again with the "already flagged" note; a new flag is
        recorded, selected and explained, and the seventh wins the game. */
    method FlagClick(flagId: string)
      requires Valid()
      modifies this
      ensures Valid()
      ensures flagId !in RedFlags ==>
                foundFlags == old(foundFlags) && selectedFlag == old(selectedFlag)
                && feedback == old(feedback) && gameState == old(gameState)
      ensures flagId in RedFlags && flagId in old(foundFlags) ==>
                foundFlags == old(foundFlags) && selectedFlag == Some(flagId)
                && feedback == AlreadyFlagged && gameState == old(gameState)
      ensures flagId in RedFlags && flagId !in old(foundFlags) ==>
                foundFlags == old(foundFlags) + [flagId] && selectedFlag == Some(flagId)
                && feedback == FlagReason(flagId)
                && (gameState == Win <==> |foundFlags| == TotalFlags)
    {
      if flagId !in RedFlags {
        return;
      }
      if flagId in foundFlags {
        selectedFlag := Some(flagId);
        feedback := AlreadyFlagged;
        return;
      }
      var updated := foundFlags + [flagId];
      SizeBound(foundFlags, flagId);
      foundFlags := updated;
      selectedFlag := Some(flagId);
      feedback := FlagReason(flagId);
      if |updated| == TotalFlags {
        gameState := Win;
      }
    }

    /** `handleReset`. */
    method Reset()
      modifies this
      ensures Valid()
      ensures foundFlags == [] && selectedFlag == None && feedback == NoFeedback && gameState == Playing
    {
      foundFlags := [];
      selectedFlag := None;
      feedback := NoFeedback;
      gameState := Playing;
    }
  }

  /** While a flag is still missing fewer than seven are found. */
  lemma SizeBound(found: seq<string>, missing: string)
    requires NoDuplicates(found)
    requires forall k :: 0 <= k < |found| ==> found[k] in RedFlags
    requires missing in RedFlags && missing !in found
    ensures |found| < TotalFlags
  {
    var f := set x | x in found;
    var all := set x | x in RedFlags;
    DistinctCard(found);
    DistinctCard(RedFlags);
    SubsetCard(f, all - {missing});
  }
}
