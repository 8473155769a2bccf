/**
 * The rules of one quiz game, stated on values: the configuration, a snapshot
 * of the GameManager's state, the predicates that say which states can occur
 * between calls, and step functions for the methods of GameManager. The small
 * helpers of the class that only overwrite a few fields have no step here;
 * their methods state that update on the snapshot directly.
 */
module Rules {
  import opened Common
  import opened Sprites
  import opened Pool
  import opened Sampler

  /** What the final banner reports: the outcome, the score and the number of rounds. */
  datatype Verdict = Verdict(won: bool, score: int, totalRounds: int)

  /**
   * The values Random.Range returns while one round is set up: the shuffle
   * draws (see DrawsInBounds) and the slot chosen as the target.
   */
  datatype RoundDraws = RoundDraws(swaps: seq<int>, target: int)

  predicate ValidDraws(d: RoundDraws, poolSize: nat) {
    DrawsInBounds(d.swaps, poolSize) && 0 <= d.target < 9
  }

  /** The game rules and the sprites, as set in the inspector. */
  datatype Config = Config(sprites: seq<Option<Sprite>>, timePerRound: real, totalRounds: int, winAtLeast: int)

  /** The state of a GameManager at one instant. */
  datatype Snapshot = Snapshot(
    enabled: bool, isPaused: bool, interactable: bool,
    highscore: int, stored: Option<int>,
    score: int, roundsPlayed: int, resolvedRounds: int, timeLeft: real,
    gameEnded: bool, roundLocked: bool,
    uniquePool: seq<Sprite>, currentRoundSprites: seq<Sprite>, buttonIDs: seq<string>,
    targetID: Option<string>, topSprite: Option<Sprite>, targetSlot: int,
    resultText: string, hidePending: bool,
    finalVerdict: Option<Verdict>, highscoreShown: bool, tryAgainShown: bool)

  const CorrectText := "TOCNO!"
  const WrongText := "GRESNO!"
  const TimeUpText := "TIME UP!"

  /** The pool is large enough to deal a round from, and the draws fit it. */
  predicate CanDeal(s: Snapshot, d: RoundDraws) {
    |s.uniquePool| >= 9 && ValidDraws(d, |s.uniquePool|)
  }

  // ---------------------------------------------------------------------------
  // What holds between steps

  /** The pool holds the distinct configured sprites, at least nine of them. */
  ghost predicate PoolOk(sprites: seq<Option<Sprite>>, pool: seq<Sprite>) {
    pool == Dedup(sprites) && |pool| >= 9 && Distinct(pool)
  }

  /** The stored record is absent until some game scored above zero, and then equals the best score. */
  ghost predicate RecordOk(highscore: int, stored: Option<int>) {
    highscore >= 0 && stored == (if highscore > 0 then Some(highscore) else None)
  }

  /** The slots hold the ids of the round's nine sprites, and the target is the sprite of slot targetSlot. */
  ghost predicate RoundOk(round: seq<Sprite>, ids: seq<string>, targetSlot: int,
                          topSprite: Option<Sprite>, targetID: Option<string>)
  {
    |round| == 9 && ids == Ids(round) && 0 <= targetSlot < 9 && |ids| == 9 &&
    topSprite == Some(round[targetSlot]) && targetID == Some(ids[targetSlot])
  }

  /** What holds at every point between the steps of a game. */
  ghost predicate Inv(c: Config, s: Snapshot) {
    s.enabled && |s.buttonIDs| == 9 && PoolOk(c.sprites, s.uniquePool) && RecordOk(s.highscore, s.stored) &&
    0 <= s.score <= s.resolvedRounds && 0 <= s.roundsPlayed &&
    (s.roundsPlayed >= 1 ==> RoundOk(s.currentRoundSprites, s.buttonIDs, s.targetSlot, s.topSprite, s.targetID)) &&
    (c.timePerRound >= 0.0 ==> 0.0 <= s.timeLeft <= c.timePerRound)
  }

  /** The state between two calls from outside: a round is open, or the game is over. */
  ghost predicate Valid(c: Config, s: Snapshot) {
    Inv(c, s) && s.roundLocked == s.gameEnded && s.tryAgainShown == s.gameEnded &&
    (s.gameEnded ==>
      s.resolvedRounds == s.roundsPlayed == Max(c.totalRounds, 0) &&
      s.finalVerdict == Some(Verdict(s.score >= c.winAtLeast, s.score, c.totalRounds))) &&
    (!s.gameEnded ==>
      1 <= s.roundsPlayed <= c.totalRounds && s.resolvedRounds == s.roundsPlayed - 1 &&
      s.finalVerdict == None && (!s.isPaused ==> s.interactable) &&
      (c.timePerRound > 0.0 ==> s.timeLeft > 0.0))
  }

  /** Every round set up so far is resolved and the game has not ended. */
  ghost predicate Settled(c: Config, s: Snapshot) {
    Inv(c, s) && !s.gameEnded && s.resolvedRounds == s.roundsPlayed &&
    s.roundsPlayed <= Max(c.totalRounds, 0) && s.finalVerdict == None && !s.tryAgainShown
  }

  /** While the game is paused, the buttons take no clicks and the game is still running. */
  ghost predicate PauseBlocksInput(s: Snapshot) {
    s.isPaused ==> !s.interactable && !s.gameEnded
  }

  /** A round has just been set up from the draws d: its options are the sample d picks, its target the sprite in slot d.target. */
  ghost predicate NewRound(c: Config, s: Snapshot, d: RoundDraws) {
    !s.gameEnded && !s.roundLocked && s.interactable && s.timeLeft == c.timePerRound &&
    CanDeal(s, d) && |s.buttonIDs| == 9 &&
    s.currentRoundSprites == RoundSample(s.uniquePool, d.swaps) &&
    s.topSprite == Some(s.currentRoundSprites[d.target]) &&
    s.targetID == Some(s.buttonIDs[d.target])
  }

  /** The game has just ended; oldHighscore and oldStored are the best score and the record before. */
  ghost predicate Ended(c: Config, s: Snapshot, oldHighscore: int, oldStored: Option<int>) {
    s.gameEnded && s.roundLocked && !s.interactable && s.tryAgainShown &&
    s.finalVerdict == Some(Verdict(s.score >= c.winAtLeast, s.score, c.totalRounds)) &&
    s.highscore == Max(oldHighscore, s.score) &&
    s.stored == (if s.score > oldHighscore then Some(s.score) else oldStored) &&
    s.highscoreShown == oldStored.Some?
  }

  /**
   * The game moved on from state s: it ended if all rounds were set up,
   * and otherwise the next round was set up from d with the record untouched.
   */
  ghost predicate Advanced(c: Config, s: Snapshot, r: Snapshot, d: RoundDraws) {
    (s.roundsPlayed >= c.totalRounds ==> r.roundsPlayed == s.roundsPlayed && Ended(c, r, s.highscore, s.stored)) &&
    (s.roundsPlayed < c.totalRounds ==>
      r.roundsPlayed == s.roundsPlayed + 1 && NewRound(c, r, d) &&
      r.highscore == s.highscore && r.stored == s.stored && r.highscoreShown == s.highscoreShown &&
      r.finalVerdict == None && !r.tryAgainShown)
  }

  // ---------------------------------------------------------------------------
  // The steps, one per method of GameManager

  function SetButtonsInteractable(s: Snapshot, on: bool): Snapshot {
    s.(interactable := on)
  }

  function ShowResult(s: Snapshot, msg: string): Snapshot {
    s.(resultText := msg, hidePending := msg != "")
  }

  function HideResultElapsed(s: Snapshot): Snapshot {
    if s.hidePending then s.(resultText := "", hidePending := false) else s
  }

  /** The open round takes no more input and counts as resolved. */
  function LockRound(s: Snapshot): Snapshot {
    s.(roundLocked := true, interactable := false, resolvedRounds := s.resolvedRounds + 1)
  }

  function UnlockRound(c: Config, s: Snapshot): Snapshot {
    s.(roundLocked := false, interactable := true, timeLeft := c.timePerRound)
  }

  /** The nine options of the round and their ids. */
  function SetupRound(s: Snapshot, d: RoundDraws): Snapshot
    requires CanDeal(s, d)
  {
    var r := RoundSample(s.uniquePool, d.swaps);
    s.(currentRoundSprites := r, buttonIDs := Ids(r))
  }

  function PickTarget(s: Snapshot, d: RoundDraws): Snapshot
    requires |s.buttonIDs| == 9 && 0 <= d.target < 9
  {
    s.(targetID := Some(s.buttonIDs[d.target]), targetSlot := d.target)
  }

  function ShowTopImage(s: Snapshot): Snapshot
    requires 0 <= s.targetSlot < |s.currentRoundSprites|
  {
    s.(topSprite := Some(s.currentRoundSprites[s.targetSlot]))
  }

  function DealRound(s: Snapshot, d: RoundDraws): Snapshot
    requires CanDeal(s, d)
  {
    ShowTopImage(PickTarget(SetupRound(s, d), d))
  }

  function CloseGame(s: Snapshot): Snapshot {
    s.(gameEnded := true, roundLocked := true, interactable := false)
  }

  function ShowFinal(c: Config, s: Snapshot): Snapshot {
    s.(finalVerdict := Some(Verdict(s.score >= c.winAtLeast, s.score, c.totalRounds)), tryAgainShown := true)
  }

  /** A better score replaces the best score and is saved; the best score is shown only if a record existed before. */
  function SaveHighscore(s: Snapshot): Snapshot {
    var improved := s.score > s.highscore;
    s.(highscore := if improved then s.score else s.highscore,
       stored := if improved then Some(s.score) else s.stored,
       highscoreShown := s.stored.Some?)
  }

  function EndGame(c: Config, s: Snapshot): Snapshot {
    SaveHighscore(ShowFinal(c, CloseGame(s)))
  }

  function StartRound(c: Config, s: Snapshot, d: RoundDraws): Snapshot
    requires CanDeal(s, d)
  {
    if s.gameEnded then s
    else
      var u := UnlockRound(c, s);
      if u.roundsPlayed >= c.totalRounds then EndGame(c, u)
      else DealRound(u.(roundsPlayed := u.roundsPlayed + 1), d)
  }

  function NextRound(c: Config, s: Snapshot, d: RoundDraws): Snapshot
    requires CanDeal(s, d)
  {
    if s.roundsPlayed >= c.totalRounds then EndGame(c, s) else StartRound(c, s, d)
  }

  function AddPoint(s: Snapshot): Snapshot {
    s.(score := s.score + 1)
  }

  function OnPick(c: Config, s: Snapshot, index: int, d: RoundDraws): Snapshot
    requires |s.buttonIDs| == 9 && CanDeal(s, d)
  {
    if s.gameEnded || s.roundLocked then s
    else if index < 0 || index >= 9 then s
    else
      var l := LockRound(s);
      var shown :=
        if l.targetID == Some(l.buttonIDs[index]) then ShowResult(AddPoint(l), CorrectText)
        else ShowResult(l, WrongText);
      NextRound(c, shown, d)
  }

  /** Seconds left after a frame of frameSeconds; the clock stands still while paused. */
  function Countdown(s: Snapshot, frameSeconds: real): real {
    var t := s.timeLeft - (if s.isPaused then 0.0 else frameSeconds);
    if t < 0.0 then 0.0 else t
  }

  function Update(c: Config, s: Snapshot, frameSeconds: real, d: RoundDraws): Snapshot
    requires CanDeal(s, d)
  {
    if s.gameEnded || s.roundLocked then s
    else
      var t := s.(timeLeft := Countdown(s, frameSeconds));
      if t.timeLeft <= 0.0 then NextRound(c, ShowResult(LockRound(t), TimeUpText), d) else t
  }

  /** The fields RestartGame sets before the first round: counters, flags, clock, target and final banner. */
  function ResetGame(c: Config, s: Snapshot): Snapshot {
    s.(gameEnded := false, roundLocked := false, score := 0, roundsPlayed := 0, resolvedRounds := 0,
       timeLeft := c.timePerRound, targetID := None,
       finalVerdict := None, highscoreShown := false, tryAgainShown := false)
  }

  function RestartGame(c: Config, s: Snapshot, d: RoundDraws): Snapshot
    requires CanDeal(s, d)
  {
    StartRound(c, SetButtonsInteractable(ShowResult(ResetGame(c, s), ""), true), d)
  }

  /** The record is deleted at startup, so the best score read back is 0. */
  function ClearRecord(s: Snapshot): Snapshot {
    s.(stored := None, highscore := 0)
  }

  function Start(c: Config, s: Snapshot, d: RoundDraws): Snapshot
    requires |Dedup(c.sprites)| >= 9 ==> ValidDraws(d, |Dedup(c.sprites)|)
  {
    var b := s.(uniquePool := Dedup(c.sprites));
    if |b.uniquePool| < 9 then b.(enabled := false) else RestartGame(c, ClearRecord(b), d)
  }

  function PauseGame(s: Snapshot): Snapshot {
    if s.gameEnded || s.isPaused then s else s.(isPaused := true, interactable := false)
  }

  function ResumeGame(s: Snapshot): Snapshot {
    if !s.isPaused then s else s.(isPaused := false, interactable := true)
  }

  /** A click on option button index reaches OnPick only while the buttons are interactable. */
  function Click(c: Config, s: Snapshot, index: int, d: RoundDraws): Snapshot
    requires |s.buttonIDs| == 9 && CanDeal(s, d)
  {
    if s.interactable then OnPick(c, s, index, d) else s
  }

  /** The try-again button reaches RestartGame only while it is shown. */
  function TryAgain(c: Config, s: Snapshot, d: RoundDraws): Snapshot
    requires CanDeal(s, d)
  {
    if s.tryAgainShown then RestartGame(c, s, d) else s
  }
}
