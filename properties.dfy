/**
 * What the steps of the round engine promise, proved on snapshots: every entry
 * point keeps the state valid, a pick or an expired clock resolves exactly one
 * round, and the end of the game decides the outcome and the best score.
 */
module Properties {
  import opened Common
  import opened Sprites
  import opened Pool
  import opened Sampler
  import opened Rules

  /**
   * From a state where every round dealt so far is resolved, StartRound either
   * ends the game (all rounds played) or deals the next round; the score, the
   * pool, the pause flag and the result banner are left alone.
   */
  lemma StartRoundAdvances(c: Config, s: Snapshot, d: RoundDraws)
    requires Settled(c, s) && CanDeal(s, d)
    ensures var r := StartRound(c, s, d);
      Valid(c, r) && Advanced(c, s, r, d) &&
      r.score == s.score && r.resolvedRounds == s.resolvedRounds && r.uniquePool == s.uniquePool &&
      r.isPaused == s.isPaused && r.resultText == s.resultText && r.hidePending == s.hidePending
  {
    var u := UnlockRound(c, s);
    if u.roundsPlayed < c.totalRounds {
      var r := DealRound(u.(roundsPlayed := u.roundsPlayed + 1), d);
      assert RoundOk(r.currentRoundSprites, r.buttonIDs, r.targetSlot, r.topSprite, r.targetID);
    }
  }

  /** NextRound moves on exactly as StartRound does. */
  lemma NextRoundAdvances(c: Config, s: Snapshot, d: RoundDraws)
    requires Settled(c, s) && CanDeal(s, d)
    ensures var r := NextRound(c, s, d);
      Valid(c, r) && Advanced(c, s, r, d) &&
      r.score == s.score && r.resolvedRounds == s.resolvedRounds && r.uniquePool == s.uniquePool &&
      r.isPaused == s.isPaused && r.resultText == s.resultText && r.hidePending == s.hidePending
  {
    StartRoundAdvances(c, s, d);
  }

  /**
   * Ending the game: the outcome is a win exactly when the score reaches
   * winAtLeast, the best score becomes the larger of the two, the record is
   * saved exactly when the score beats it, and the best score is shown
   * exactly when a record existed before this game's save.
   */
  lemma EndGameOutcome(c: Config, s: Snapshot)
    requires Settled(c, s) && s.roundsPlayed >= c.totalRounds
    ensures var r := EndGame(c, s);
      Valid(c, r) && Ended(c, r, s.highscore, s.stored) &&
      (r.finalVerdict.value.won <==> s.score >= c.winAtLeast) &&
      (r.stored != s.stored <==> s.score > s.highscore) &&
      (r.highscoreShown <==> s.stored.Some?)
  {
  }

  /** A pick is ignored after the game ended, while the round is locked, and for a slot outside 0..8. */
  lemma OnPickIgnored(c: Config, s: Snapshot, index: int, d: RoundDraws)
    requires |s.buttonIDs| == 9 && CanDeal(s, d)
    requires s.gameEnded || s.roundLocked || index < 0 || index >= 9
    ensures OnPick(c, s, index, d) == s
  {
  }

  /**
   * A pick in an open round resolves it: one more round is resolved, the score
   * rises by one exactly when the picked slot holds the target id, the banner
   * says which, and the game moves on to the next round or its end.
   */
  lemma OnPickResolves(c: Config, s: Snapshot, index: int, d: RoundDraws)
    requires Valid(c, s) && CanDeal(s, d) && !s.gameEnded && 0 <= index < 9
    ensures var r := OnPick(c, s, index, d);
      var hit := s.targetID == Some(s.buttonIDs[index]);
      Valid(c, r) && Advanced(c, s, r, d) &&
      r.resolvedRounds == s.resolvedRounds + 1 &&
      r.score == s.score + (if hit then 1 else 0) &&
      r.resultText == (if hit then CorrectText else WrongText) && r.hidePending &&
      r.isPaused == s.isPaused
  {
    var l := LockRound(s);
    var hit := l.targetID == Some(l.buttonIDs[index]);
    var shown := if hit then ShowResult(AddPoint(l), CorrectText) else ShowResult(l, WrongText);
    NextRoundAdvances(c, shown, d);
  }

  /** OnPick keeps the state valid, whatever the slot and whatever the state of the round. */
  lemma OnPickKeepsValid(c: Config, s: Snapshot, index: int, d: RoundDraws)
    requires Valid(c, s) && CanDeal(s, d)
    ensures Valid(c, OnPick(c, s, index, d))
  {
    if !s.gameEnded && 0 <= index < 9 {
      OnPickResolves(c, s, index, d);
    }
  }

  /** The pick is scored as correct exactly when the picked slot shows the target sprite. */
  lemma PickMatchesTarget(c: Config, s: Snapshot, index: int)
    requires Valid(c, s) && !s.gameEnded && 0 <= index < 9
    ensures s.targetID == Some(s.buttonIDs[index]) <==> s.currentRoundSprites[index] == s.topSprite.value
  {
    SpriteIdInjective(s.currentRoundSprites[index], s.currentRoundSprites[s.targetSlot]);
  }

  /**
   * A freshly dealt round shows nine pairwise-distinct sprites of the pool under
   * nine pairwise-distinct ids, and the target id is one of them, so the search
   * for the target's slot always succeeds.
   */
  lemma RoundIsFair(c: Config, s: Snapshot, d: RoundDraws)
    requires Valid(c, s) && NewRound(c, s, d)
    ensures Distinct(s.currentRoundSprites) && forall k :: 0 <= k < 9 ==> s.currentRoundSprites[k] in s.uniquePool
    ensures Distinct(s.buttonIDs)
    ensures s.targetID.Some? && s.targetID.value in s.buttonIDs
  {
    var r := s.currentRoundSprites;
    RoundSampleDistinct(s.uniquePool, d.swaps);
    forall a, b | 0 <= a < b < |r|
      ensures s.buttonIDs[a] != s.buttonIDs[b]
    {
      SpriteIdInjective(r[a], r[b]);
    }
  }

  /** A frame changes nothing once the game ended or while the round is locked. */
  lemma UpdateIgnored(c: Config, s: Snapshot, frameSeconds: real, d: RoundDraws)
    requires CanDeal(s, d) && (s.gameEnded || s.roundLocked)
    ensures Update(c, s, frameSeconds, d) == s
  {
  }

  /** While paused, a frame changes nothing as long as the rounds have a positive time limit. */
  lemma UpdatePaused(c: Config, s: Snapshot, frameSeconds: real, d: RoundDraws)
    requires Valid(c, s) && CanDeal(s, d) && s.isPaused && c.timePerRound > 0.0
    ensures Update(c, s, frameSeconds, d) == s
  {
    if !s.gameEnded {
      assert Countdown(s, frameSeconds) == s.timeLeft;
      assert s.(timeLeft := s.timeLeft) == s;
    }
  }

  /** A frame that leaves time on the clock only counts it down, clamped at zero. */
  lemma UpdateCountsDown(c: Config, s: Snapshot, frameSeconds: real, d: RoundDraws)
    requires Valid(c, s) && CanDeal(s, d) && frameSeconds >= 0.0 && !s.gameEnded
    requires Countdown(s, frameSeconds) > 0.0
    ensures var r := Update(c, s, frameSeconds, d);
      r == s.(timeLeft := Countdown(s, frameSeconds)) && r.timeLeft <= s.timeLeft && Valid(c, r)
  {
  }

  /**
   * A frame that runs the clock out resolves the round as a miss: one more
   * round resolved, the score unchanged, the banner says time is up, and the
   * game moves on to the next round or its end.
   */
  lemma UpdateExpires(c: Config, s: Snapshot, frameSeconds: real, d: RoundDraws)
    requires Valid(c, s) && CanDeal(s, d) && frameSeconds >= 0.0 && !s.gameEnded
    requires Countdown(s, frameSeconds) == 0.0
    ensures var r := Update(c, s, frameSeconds, d);
      Valid(c, r) && Advanced(c, s, r, d) &&
      r.resolvedRounds == s.resolvedRounds + 1 && r.score == s.score &&
      r.resultText == TimeUpText && r.hidePending && r.isPaused == s.isPaused
  {
    var t := s.(timeLeft := Countdown(s, frameSeconds));
    NextRoundAdvances(c, ShowResult(LockRound(t), TimeUpText), d);
  }

  /** Update keeps the state valid, and keeps input blocked while paused when rounds have a positive time limit. */
  lemma UpdateKeepsValid(c: Config, s: Snapshot, frameSeconds: real, d: RoundDraws)
    requires Valid(c, s) && CanDeal(s, d) && frameSeconds >= 0.0
    ensures Valid(c, Update(c, s, frameSeconds, d))
    ensures PauseBlocksInput(s) && c.timePerRound > 0.0 ==> PauseBlocksInput(Update(c, s, frameSeconds, d))
  {
    if !s.gameEnded {
      if Countdown(s, frameSeconds) == 0.0 {
        UpdateExpires(c, s, frameSeconds, d);
      }
      if s.isPaused && c.timePerRound > 0.0 {
        UpdatePaused(c, s, frameSeconds, d);
      }
    }
  }

  /**
   * RestartGame starts a fresh game from any state with a valid pool and
   * record: score and counters at zero, the banner cleared, and then either
   * the first round or, with no rounds configured, the end of the game.
   */
  lemma RestartStartsFresh(c: Config, s: Snapshot, d: RoundDraws)
    requires s.enabled && |s.buttonIDs| == 9 && PoolOk(c.sprites, s.uniquePool)
    requires RecordOk(s.highscore, s.stored) && CanDeal(s, d)
    ensures var r := RestartGame(c, s, d);
      Valid(c, r) && r.score == 0 && r.resolvedRounds == 0 && r.resultText == "" && !r.hidePending &&
      r.isPaused == s.isPaused && r.uniquePool == s.uniquePool
    ensures var r := RestartGame(c, s, d);
      c.totalRounds >= 1 ==>
        r.roundsPlayed == 1 && NewRound(c, r, d) && !r.highscoreShown &&
        r.highscore == s.highscore && r.stored == s.stored
    ensures var r := RestartGame(c, s, d);
      c.totalRounds < 1 ==> r.roundsPlayed == 0 && Ended(c, r, s.highscore, s.stored)
  {
    StartRoundAdvances(c, SetButtonsInteractable(ShowResult(ResetGame(c, s), ""), true), d);
  }

  /**
   * Startup builds the pool and runs exactly when the configured sprites hold
   * nine distinct ones; a running game starts with no record and score 0.
   * Otherwise the object is disabled and nothing else changes.
   */
  lemma StartOutcome(c: Config, s: Snapshot, d: RoundDraws)
    requires s.enabled && |s.buttonIDs| == 9 && !s.isPaused
    requires |Dedup(c.sprites)| >= 9 ==> ValidDraws(d, |Dedup(c.sprites)|)
    ensures var r := Start(c, s, d);
      r.uniquePool == Dedup(c.sprites) && (r.enabled <==> |Configured(c.sprites)| >= 9)
    ensures var r := Start(c, s, d);
      r.enabled ==> Valid(c, r) && PauseBlocksInput(r) && r.highscore == 0 && r.stored == None && r.score == 0
    ensures var r := Start(c, s, d);
      !r.enabled ==> r == s.(uniquePool := Dedup(c.sprites), enabled := false)
  {
    DedupSize(c.sprites);
    var b := s.(uniquePool := Dedup(c.sprites));
    if |b.uniquePool| >= 9 {
      DedupDistinct(c.sprites);
      RestartStartsFresh(c, ClearRecord(b), d);
    }
  }

  /** Pausing a running game blocks input; it changes nothing once the game ended or when already paused. */
  lemma PauseKeepsValid(c: Config, s: Snapshot)
    requires Valid(c, s)
    ensures Valid(c, PauseGame(s))
    ensures s.gameEnded || s.isPaused ==> PauseGame(s) == s
    ensures !s.gameEnded ==> PauseGame(s).isPaused
    ensures !s.gameEnded && !s.isPaused ==> !PauseGame(s).interactable
    ensures PauseBlocksInput(s) ==> PauseBlocksInput(PauseGame(s))
  {
  }

  /** Resuming unpauses and gives the buttons back; it changes nothing when not paused. */
  lemma ResumeKeepsValid(c: Config, s: Snapshot)
    requires Valid(c, s)
    ensures Valid(c, ResumeGame(s)) && !ResumeGame(s).isPaused && PauseBlocksInput(ResumeGame(s))
    ensures !s.isPaused ==> ResumeGame(s) == s
    ensures s.isPaused ==> ResumeGame(s).interactable
  {
  }

  /** Pausing a running game and resuming it gives back exactly the state before, clock included. */
  lemma PauseResumeRoundTrip(c: Config, s: Snapshot)
    requires Valid(c, s) && !s.gameEnded && !s.isPaused
    ensures ResumeGame(PauseGame(s)) == s
    ensures PauseGame(s).timeLeft == s.timeLeft
  {
  }

  /** A button click is lost while input is blocked by the pause, and otherwise keeps the state valid. */
  lemma ClickKeepsValid(c: Config, s: Snapshot, index: int, d: RoundDraws)
    requires Valid(c, s) && CanDeal(s, d)
    ensures Valid(c, Click(c, s, index, d))
    ensures PauseBlocksInput(s) && s.isPaused ==> Click(c, s, index, d) == s
    ensures PauseBlocksInput(s) ==> PauseBlocksInput(Click(c, s, index, d))
  {
    OnPickKeepsValid(c, s, index, d);
    if s.interactable && !s.gameEnded && 0 <= index < 9 {
      OnPickResolves(c, s, index, d);
    }
  }

  /** Try again does nothing while a game runs, and after the end starts a fresh game. */
  lemma TryAgainRestarts(c: Config, s: Snapshot, d: RoundDraws)
    requires Valid(c, s) && CanDeal(s, d)
    ensures !s.gameEnded ==> TryAgain(c, s, d) == s
    ensures s.gameEnded ==>
      TryAgain(c, s, d) == RestartGame(c, s, d) &&
      Valid(c, TryAgain(c, s, d)) && TryAgain(c, s, d).score == 0
    ensures PauseBlocksInput(s) ==> PauseBlocksInput(TryAgain(c, s, d))
  {
    if s.gameEnded {
      RestartStartsFresh(c, s, d);
    }
  }

  /** The scheduled clear empties the banner and keeps the state valid. */
  lemma HideKeepsValid(c: Config, s: Snapshot)
    requires Valid(c, s)
    ensures Valid(c, HideResultElapsed(s)) && !HideResultElapsed(s).hidePending
    ensures HideResultElapsed(s).resultText == if s.hidePending then "" else s.resultText
    ensures PauseBlocksInput(s) ==> PauseBlocksInput(HideResultElapsed(s))
  {
  }

  /** Between calls, 0 <= score <= roundsPlayed <= totalRounds (or 0 when no rounds are configured). */
  lemma ScoreBounds(c: Config, s: Snapshot)
    requires Valid(c, s)
    ensures 0 <= s.score <= s.roundsPlayed <= Max(c.totalRounds, 0)
    ensures s.gameEnded ==> s.roundsPlayed == Max(c.totalRounds, 0)
  {
  }
}
