/**
 * The round engine of the picture-matching quiz: one GameManager object whose
 * methods update the score, the round counter, the countdown and the lock and
 * end flags step by step. Every method with a step of the same name in module
 * Rules is proved to change the object exactly as that step changes a snapshot
 * of it. The smaller helpers (BuildUniquePool, ResetFlags, ResetCounters,
 * ResetClockAndTarget, ClearFinal, CountRound, TickClock, FillRound,
 * FillButtonIDs) state their new snapshot as the old one with the fields they
 * write replaced, and FindCorrectIndex changes nothing.
 */
module Game {
  import opened Common
  import opened Sprites
  import opened Pool
  import opened Sampler
  import opened Rules
  import Properties

  class GameManager {
    // Game rules and sprites, as set in the inspector.
    const sprites: seq<Option<Sprite>>
    const timePerRound: real
    const totalRounds: int
    const winAtLeast: int

    /** The id written into each of the nine button slots. */
    const buttonIDs: array<string>

    var enabled: bool
    var isPaused: bool
    /** Whether the nine option buttons accept clicks (they are switched together). */
    var interactable: bool
    var highscore: int
    /** The persisted best score (the HIGHSCORE key of the player preferences). */
    var stored: Option<int>

    var score: int
    var roundsPlayed: int
    var timeLeft: real
    var gameEnded: bool
    var roundLocked: bool

    var uniquePool: seq<Sprite>
    var currentRoundSprites: seq<Sprite>
    var targetID: Option<string>
    /** The sprite shown as the target at the top of the screen. */
    var topSprite: Option<Sprite>
    /** The slot the target was chosen from. */
    ghost var targetSlot: int

    /** The result banner, and whether an automatic clear of it is scheduled. */
    var resultText: string
    var hidePending: bool
    /** The final banner (None while it is empty). */
    var finalVerdict: Option<Verdict>
    var highscoreShown: bool
    var tryAgainShown: bool

    /** How many rounds of this game have been resolved, by a pick or by the clock. */
    ghost var resolvedRounds: int

    ghost function Cfg(): Config {
      Config(sprites, timePerRound, totalRounds, winAtLeast)
    }

    /** The whole state of the object, as a value. */
    ghost function Snap(): Snapshot
      reads this, buttonIDs
    {
      Snapshot(enabled, isPaused, interactable, highscore, stored,
               score, roundsPlayed, resolvedRounds, timeLeft, gameEnded, roundLocked,
               uniquePool, currentRoundSprites, buttonIDs[..], targetID, topSprite, targetSlot,
               resultText, hidePending, finalVerdict, highscoreShown, tryAgainShown)
    }

    /** The object is between two calls from outside, in a state Rules.Valid allows. */
    ghost predicate Valid()
      reads this, buttonIDs
    {
      Rules.Valid(Cfg(), Snap())
    }

    /** The object as the inspector configures it, before Start runs. */
    constructor (sprites: seq<Option<Sprite>>, timePerRound: real, totalRounds: int,
                 winAtLeast: int, savedBest: Option<int>)
      ensures Cfg() == Config(sprites, timePerRound, totalRounds, winAtLeast)
      ensures fresh(buttonIDs) && buttonIDs.Length == 9
      ensures enabled && !isPaused && interactable && highscore == 0 && stored == savedBest
      ensures score == 0 && roundsPlayed == 0 && !gameEnded && !roundLocked
      ensures uniquePool == [] && currentRoundSprites == [] && targetID == None
    {
      this.sprites := sprites;
      this.timePerRound := timePerRound;
      this.totalRounds := totalRounds;
      this.winAtLeast := winAtLeast;
      buttonIDs := new string[9](_ => "");
      enabled, isPaused, interactable := true, false, true;
      highscore, stored := 0, savedBest;
      score, roundsPlayed, timeLeft := 0, 0, 0.0;
      gameEnded, roundLocked := false, false;
      uniquePool, currentRoundSprites := [], [];
      targetID, topSprite := None, None;
      resultText, hidePending := "", false;
      finalVerdict, highscoreShown, tryAgainShown := None, false, false;
      resolvedRounds := 0;
    }

    /**
     * Startup: builds the pool and refuses to run with fewer than nine distinct
     * sprites; otherwise clears the stored record and starts the first game.
     */
    method Start(d: RoundDraws)
      requires buttonIDs.Length == 9 && (|Dedup(sprites)| >= 9 ==> ValidDraws(d, |Dedup(sprites)|))
      modifies this, buttonIDs
      ensures Snap() == Rules.Start(Cfg(), old(Snap()), d)
      ensures old(enabled) && !old(isPaused) && enabled ==> Valid() && PauseBlocksInput(Snap())
    {
      ghost var s0 := Snap();
      if enabled && !isPaused {
        Properties.StartOutcome(Cfg(), s0, d);
      }
      BuildUniquePool();
      if |uniquePool| < 9 {
        enabled := false;
        return;
      }
      ClearRecord();
      RestartGame(d);
    }

    method BuildUniquePool()
      modifies this`uniquePool
      ensures Snap() == old(Snap()).(uniquePool := Dedup(sprites))
    {
      uniquePool := [];
      var seen: set<Sprite> := {};
      var i := 0;
      while i < |sprites|
        invariant 0 <= i <= |sprites|
        invariant uniquePool == Dedup(sprites[..i])
        invariant forall x :: x in seen <==> x in uniquePool
      {
        assert sprites[..i + 1][..i] == sprites[..i];
        var s := sprites[i];
        if s.Some? {
          if s.value !in seen {
            seen := seen + {s.value};
            uniquePool := uniquePool + [s.value];
          }
        }
        i := i + 1;
      }
      assert sprites[..i] == sprites;
    }

    /** Deletes the saved record and reads the best score back, with 0 when it is missing. */
    method ClearRecord()
      modifies this`stored, this`highscore
      ensures Snap() == Rules.ClearRecord(old(Snap()))
    {
      stored := None;
      highscore := match stored case Some(v) => v case None => 0;
    }

    /** Starts a fresh game: score and round count back to zero, then the first round. */
    method RestartGame(d: RoundDraws)
      requires buttonIDs.Length == 9 && |uniquePool| >= 9 && ValidDraws(d, |uniquePool|)
      modifies this, buttonIDs
      ensures Snap() == Rules.RestartGame(Cfg(), old(Snap()), d)
    {
      ResetGame();
      ShowResult("");
      SetButtonsInteractable(true);
      StartRound(d);
    }

    /** Puts the counters, flags, clock, target and final banner back to their state before a first round. */
    method ResetGame()
      modifies this`gameEnded, this`roundLocked, this`score, this`roundsPlayed, this`resolvedRounds,
               this`timeLeft, this`targetID, this`finalVerdict, this`highscoreShown, this`tryAgainShown
      ensures Snap() == Rules.ResetGame(Cfg(), old(Snap()))
    {
      ResetFlags();
      ResetCounters();
      ResetClockAndTarget();
      ClearFinal();
    }

    method ResetFlags()
      modifies this`gameEnded, this`roundLocked
      ensures Snap() == old(Snap()).(gameEnded := false, roundLocked := false)
    {
      gameEnded := false;
      roundLocked := false;
    }

    method ResetCounters()
      modifies this`score, this`roundsPlayed, this`resolvedRounds
      ensures Snap() == old(Snap()).(score := 0, roundsPlayed := 0, resolvedRounds := 0)
    {
      score := 0;
      roundsPlayed := 0;
      resolvedRounds := 0;
    }

    method ResetClockAndTarget()
      modifies this`timeLeft, this`targetID
      ensures Snap() == old(Snap()).(timeLeft := timePerRound, targetID := None)
    {
      timeLeft := timePerRound;
      targetID := None;
    }

    /** Empties the final banner and hides the best score and the try-again button. */
    method ClearFinal()
      modifies this`finalVerdict, this`highscoreShown, this`tryAgainShown
      ensures Snap() == old(Snap()).(finalVerdict := None, highscoreShown := false, tryAgainShown := false)
    {
      finalVerdict := None;
      highscoreShown := false;
      tryAgainShown := false;
    }

    method StartRound(d: RoundDraws)
      requires buttonIDs.Length == 9 && |uniquePool| >= 9 && ValidDraws(d, |uniquePool|)
      modifies this, buttonIDs
      ensures Snap() == Rules.StartRound(Cfg(), old(Snap()), d)
    {
      if gameEnded {
        return;
      }
      UnlockRound();
      if roundsPlayed >= totalRounds {
        EndGame();
        return;
      }
      CountRound();
      DealRound(d);
    }

    method CountRound()
      modifies this`roundsPlayed
      ensures Snap() == old(Snap()).(roundsPlayed := old(roundsPlayed) + 1)
    {
      roundsPlayed := roundsPlayed + 1;
    }

    /** Opens input for a new round and restarts its clock. */
    method UnlockRound()
      modifies this`roundLocked, this`interactable, this`timeLeft
      ensures Snap() == Rules.UnlockRound(Cfg(), old(Snap()))
    {
      roundLocked := false;
      SetButtonsInteractable(true);
      timeLeft := timePerRound;
    }

    /** Deals the nine options of a new round from d, picks the target among them and shows it at the top. */
    method DealRound(d: RoundDraws)
      requires buttonIDs.Length == 9 && |uniquePool| >= 9 && ValidDraws(d, |uniquePool|)
      modifies buttonIDs, this`currentRoundSprites, this`targetID, this`targetSlot, this`topSprite
      ensures Snap() == Rules.DealRound(old(Snap()), d)
    {
      SetupRound(d);
      PickTarget(d);
      ShowTopImage();
    }

    /** Shuffles the pool indices and puts the pool sprites at the first nine into the slots. */
    method SetupRound(d: RoundDraws)
      requires buttonIDs.Length == 9 && |uniquePool| >= 9 && ValidDraws(d, |uniquePool|)
      modifies this`currentRoundSprites, buttonIDs
      ensures Snap() == Rules.SetupRound(old(Snap()), d)
    {
      var idxs := ShuffledIndices(|uniquePool|, d.swaps);
      FillRound(idxs, d);
      FillButtonIDs();
    }

    /** Puts the pool sprites at the first nine shuffled indices into the round. */
    method FillRound(idxs: array<int>, ghost d: RoundDraws)
      requires buttonIDs.Length == 9 && |uniquePool| >= 9 && ValidDraws(d, |uniquePool|)
      requires idxs[..] == Shuffled(|uniquePool|, d.swaps)
      modifies this`currentRoundSprites
      ensures Snap() == old(Snap()).(currentRoundSprites := RoundSample(uniquePool, d.swaps))
    {
      ShuffledIsPermutation(|uniquePool|, d.swaps);
      currentRoundSprites := [];
      var k := 0;
      while k < 9
        invariant 0 <= k <= 9
        invariant currentRoundSprites == RoundSample(uniquePool, d.swaps)[..k]
      {
        currentRoundSprites := currentRoundSprites + [uniquePool[idxs[k]]];
        k := k + 1;
      }
    }

    /** Writes the id of each round sprite into its button slot. */
    method FillButtonIDs()
      requires |currentRoundSprites| == 9 && buttonIDs.Length == 9
      modifies buttonIDs
      ensures Snap() == old(Snap()).(buttonIDs := Ids(currentRoundSprites))
    {
      var i := 0;
      while i < 9
        invariant 0 <= i <= 9
        invariant forall k :: 0 <= k < i ==> buttonIDs[k] == SpriteId(currentRoundSprites[k])
      {
        var s := currentRoundSprites[i];
        buttonIDs[i] := SpriteId(s);
        i := i + 1;
      }
    }

    /** The target slot is chosen by the draw d.target and its id becomes the target id. */
    method PickTarget(d: RoundDraws)
      requires buttonIDs.Length == 9 && 0 <= d.target < 9
      modifies this`targetID, this`targetSlot
      ensures Snap() == Rules.PickTarget(old(Snap()), d)
    {
      var correctIndex := d.target;
      targetID := Some(buttonIDs[correctIndex]);
      targetSlot := correctIndex;
    }

    /** Finds the slot holding the target id and shows that slot's sprite at the top. */
    method ShowTopImage()
      requires buttonIDs.Length == 9 && |currentRoundSprites| == 9 && buttonIDs[..] == Ids(currentRoundSprites)
      requires 0 <= targetSlot < 9 && targetID == Some(buttonIDs[targetSlot])
      modifies this`topSprite
      ensures Snap() == Rules.ShowTopImage(old(Snap()))
    {
      var correctIndex := FindCorrectIndex();
      if correctIndex >= 0 {
        SpriteIdInjective(currentRoundSprites[correctIndex], currentRoundSprites[targetSlot]);
        topSprite := Some(currentRoundSprites[correctIndex]);
      } else {
        assert false;
      }
    }

    /** The first slot whose id equals the target id, or -1 when there is none. */
    method FindCorrectIndex() returns (correctIndex: int)
      requires buttonIDs.Length == 9
      ensures -1 <= correctIndex < 9
      ensures correctIndex == -1 <==> targetID.None? || targetID.value !in buttonIDs[..]
      ensures correctIndex >= 0 ==>
        targetID == Some(buttonIDs[correctIndex]) &&
        forall i :: 0 <= i < correctIndex ==> buttonIDs[i] != buttonIDs[correctIndex]
    {
      correctIndex := -1;
      var i := 0;
      while i < 9
        invariant 0 <= i <= 9 && correctIndex == -1
        invariant forall k :: 0 <= k < i ==> targetID != Some(buttonIDs[k])
      {
        if targetID == Some(buttonIDs[i]) {
          correctIndex := i;
          break;
        }
        i := i + 1;
      }
    }

    /** The listener of option button index: resolves the open round and moves on. */
    method OnPick(index: int, d: RoundDraws)
      requires buttonIDs.Length == 9 && |uniquePool| >= 9 && ValidDraws(d, |uniquePool|)
      modifies this, buttonIDs
      ensures Snap() == Rules.OnPick(Cfg(), old(Snap()), index, d)
    {
      if gameEnded || roundLocked {
        return;
      }
      if index < 0 || index >= 9 {
        return;
      }
      LockRound();
      var correct := targetID == Some(buttonIDs[index]);
      if correct {
        AddPoint();
        ShowResult(CorrectText);
      } else {
        ShowResult(WrongText);
      }
      NextRound(d);
    }

    method AddPoint()
      modifies this`score
      ensures Snap() == Rules.AddPoint(old(Snap()))
    {
      score := score + 1;
    }

    method NextRound(d: RoundDraws)
      requires buttonIDs.Length == 9 && |uniquePool| >= 9 && ValidDraws(d, |uniquePool|)
      modifies this, buttonIDs
      ensures Snap() == Rules.NextRound(Cfg(), old(Snap()), d)
    {
      if roundsPlayed >= totalRounds {
        EndGame();
        return;
      }
      StartRound(d);
    }

    /** Ends the game: locks input, shows the outcome and updates the best score. */
    method EndGame()
      modifies this`gameEnded, this`roundLocked, this`interactable, this`finalVerdict, this`tryAgainShown,
               this`highscore, this`stored, this`highscoreShown
      ensures Snap() == Rules.EndGame(Cfg(), old(Snap()))
    {
      CloseGame();
      ShowFinal();
      SaveHighscore();
    }

    method CloseGame()
      modifies this`gameEnded, this`roundLocked, this`interactable
      ensures Snap() == Rules.CloseGame(old(Snap()))
    {
      gameEnded := true;
      roundLocked := true;
      SetButtonsInteractable(false);
    }

    /** Fills the final banner with the outcome and shows the try-again button. */
    method ShowFinal()
      modifies this`finalVerdict, this`tryAgainShown
      ensures Snap() == Rules.ShowFinal(Cfg(), old(Snap()))
    {
      var won := score >= winAtLeast;
      finalVerdict := Some(Verdict(won, score, totalRounds));
      tryAgainShown := true;
    }

    method SaveHighscore()
      modifies this`highscore, this`stored, this`highscoreShown
      ensures Snap() == Rules.SaveHighscore(old(Snap()))
    {
      var hadHighscoreBefore := stored.Some?;
      if score > highscore {
        highscore := score;
        stored := Some(highscore);
      }
      highscoreShown := hadHighscoreBefore;
    }

    /** One frame of frameSeconds: counts the open round down and resolves it as a miss at zero. */
    method Update(frameSeconds: real, d: RoundDraws)
      requires buttonIDs.Length == 9 && |uniquePool| >= 9 && ValidDraws(d, |uniquePool|)
      modifies this, buttonIDs
      ensures Snap() == Rules.Update(Cfg(), old(Snap()), frameSeconds, d)
      ensures old(Valid()) && frameSeconds >= 0.0 ==> Valid()
    {
      ghost var s0 := Snap();
      if Rules.Valid(Cfg(), s0) && frameSeconds >= 0.0 {
        Properties.UpdateKeepsValid(Cfg(), s0, frameSeconds, d);
      }
      if gameEnded || roundLocked {
        return;
      }
      TickClock(frameSeconds);
      if timeLeft <= 0.0 {
        LockRound();
        ShowResult(TimeUpText);
        NextRound(d);
      }
    }

    /** Takes one frame off the clock (none while paused), clamping at zero. */
    method TickClock(frameSeconds: real)
      modifies this`timeLeft
      ensures Snap() == old(Snap()).(timeLeft := Countdown(old(Snap()), frameSeconds))
    {
      var deltaTime := if isPaused then 0.0 else frameSeconds;
      var t := timeLeft - deltaTime;
      if t < 0.0 {
        t := 0.0;
      }
      timeLeft := t;
    }

    method PauseGame()
      modifies this`isPaused, this`interactable
      ensures Snap() == Rules.PauseGame(old(Snap()))
      ensures old(Valid()) ==> Valid()
    {
      ghost var s0 := Snap();
      if Rules.Valid(Cfg(), s0) {
        Properties.PauseKeepsValid(Cfg(), s0);
      }
      if gameEnded || isPaused {
        return;
      }
      isPaused := true;
      SetButtonsInteractable(false);
    }

    method ResumeGame()
      modifies this`isPaused, this`interactable
      ensures Snap() == Rules.ResumeGame(old(Snap()))
      ensures old(Valid()) ==> Valid()
    {
      ghost var s0 := Snap();
      if Rules.Valid(Cfg(), s0) {
        Properties.ResumeKeepsValid(Cfg(), s0);
      }
      if !isPaused {
        return;
      }
      isPaused := false;
      SetButtonsInteractable(true);
    }

    /** A click on option button index, which the button delivers only while it is interactable. */
    method Click(index: int, d: RoundDraws)
      requires buttonIDs.Length == 9 && |uniquePool| >= 9 && ValidDraws(d, |uniquePool|)
      modifies this, buttonIDs
      ensures Snap() == Rules.Click(Cfg(), old(Snap()), index, d)
      ensures old(Valid()) ==> Valid()
    {
      ghost var s0 := Snap();
      if Rules.Valid(Cfg(), s0) {
        Properties.ClickKeepsValid(Cfg(), s0, index, d);
      }
      if interactable {
        OnPick(index, d);
      }
    }

    /** A click on the try-again button, which is shown only once the game has ended. */
    method TryAgain(d: RoundDraws)
      requires buttonIDs.Length == 9 && |uniquePool| >= 9 && ValidDraws(d, |uniquePool|)
      modifies this, buttonIDs
      ensures Snap() == Rules.TryAgain(Cfg(), old(Snap()), d)
      ensures old(Valid()) ==> Valid()
    {
      ghost var s0 := Snap();
      if Rules.Valid(Cfg(), s0) {
        Properties.TryAgainRestarts(Cfg(), s0, d);
      }
      if tryAgainShown {
        RestartGame(d);
      }
    }

    /** Switches all nine option buttons on or off together. */
    method SetButtonsInteractable(on: bool)
      modifies this`interactable
      ensures Snap() == Rules.SetButtonsInteractable(old(Snap()), on)
    {
      interactable := on;
    }

    method LockRound()
      modifies this`roundLocked, this`interactable, this`resolvedRounds
      ensures Snap() == Rules.LockRound(old(Snap()))
    {
      roundLocked := true;
      SetButtonsInteractable(false);
      resolvedRounds := resolvedRounds + 1;
    }

    /** Shows msg in the result banner and schedules its clear unless it is empty, replacing any earlier schedule. */
    method ShowResult(msg: string)
      modifies this`resultText, this`hidePending
      ensures Snap() == Rules.ShowResult(old(Snap()), msg)
    {
      resultText := msg;
      hidePending := msg != "";
    }

    /** The scheduled clear of the result banner comes due. */
    method HideResultElapsed()
      modifies this`resultText, this`hidePending
      ensures Snap() == Rules.HideResultElapsed(old(Snap()))
      ensures old(Valid()) ==> Valid()
    {
      ghost var s0 := Snap();
      if Rules.Valid(Cfg(), s0) {
        Properties.HideKeepsValid(Cfg(), s0);
      }
      if hidePending {
        resultText := "";
        hidePending := false;
      }
    }
  }
}
