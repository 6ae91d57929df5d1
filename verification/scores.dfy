/**
 * Score submission (app.js `submitScore`): the signed-in guard, the aggregate
 * stats transaction and the leaderboard append, over an abstract store.
 */
module Scores {
  import opened Wrappers
  import JsText

  /** The `users/{uid}/stats` node as stored; either field may be missing. */
  datatype StoredStats = StoredStats(gamesPlayed: Option<int>, totalScore: Option<int>)

  /** One `leaderboards/{game}/{entryId}` record. */
  datatype ScoreEntry = ScoreEntry(name: string, score: int, userId: string, ts: int)

  /** The parts of the remote store that a submission touches. */
  datatype Store = Store(stats: map<string, StoredStats>, leaderboards: map<string, seq<ScoreEntry>>)

  /** The signed-in identity (null or empty when signed out) and its cached display name. */
  datatype Session = Session(uid: Option<string>, username: Option<string>)

  datatype SubmitError = NotLoggedIn

  /** Games played as every reader sees it (`stats.gamesPlayed || 0`): a missing node or field counts as 0. */
  function GamesPlayed(stats: Option<StoredStats>): (n: int)
    ensures stats.None? || stats.value.gamesPlayed.None? ==> n == 0
    ensures stats.Some? && stats.value.gamesPlayed.Some? ==> n == stats.value.gamesPlayed.value
  {
    if stats.Some? then stats.value.gamesPlayed.GetOr(0) else 0
  }

  /** Total score as every reader sees it (`stats.totalScore || 0`): a missing node or field counts as 0. */
  function TotalScore(stats: Option<StoredStats>): (n: int)
    ensures stats.None? || stats.value.totalScore.None? ==> n == 0
    ensures stats.Some? && stats.value.totalScore.Some? ==> n == stats.value.totalScore.value
  {
    if stats.Some? then stats.value.totalScore.GetOr(0) else 0
  }

  /** The transaction body: one more game, `score` more points, both fields written. */
  function StatsUpdate(current: Option<StoredStats>, score: int): (r: StoredStats)
    ensures r.gamesPlayed.Some? && r.totalScore.Some?
    ensures GamesPlayed(Some(r)) == GamesPlayed(current) + 1
    ensures TotalScore(Some(r)) == TotalScore(current) + score
  {
    var s := current.GetOr(StoredStats(Some(0), Some(0)));
    StoredStats(Some(s.gamesPlayed.GetOr(0) + 1), Some(s.totalScore.GetOr(0) + score))
  }

  /** The entry name: the explicit name, else the session's name, else `Joueur` (empty strings are skipped). */
  function EntryName(customName: Option<string>, session: Session): (r: string)
    ensures JsText.Truthy(customName) ==> r == customName.value
    ensures !JsText.Truthy(customName) && JsText.Truthy(session.username) ==> r == session.username.value
    ensures !JsText.Truthy(customName) && !JsText.Truthy(session.username) ==> r == "Joueur"
    ensures r != ""
  {
    JsText.OrElse(customName, JsText.OrElse(session.username, "Joueur"))
  }

  /** The stats node of `uid`, if any. */
  function StatsOf(store: Store, uid: string): Option<StoredStats> {
    if uid in store.stats then Some(store.stats[uid]) else None
  }

  /** The entries of a game's leaderboard, in push order; a missing board is empty. */
  function Board(store: Store, game: string): seq<ScoreEntry> {
    if game in store.leaderboards then store.leaderboards[game] else []
  }

  /**
   * `submitScore`: without a session, rejects and writes nothing; otherwise
   * runs the stats transaction and pushes one entry onto the game's board.
   */
  function SubmitScore(session: Session, game: string, score: int, customName: Option<string>, now: int, store: Store)
    : (r: Result<Store, SubmitError>)
    ensures r.Err? <==> !JsText.Truthy(session.uid)
    ensures r.Ok? ==> var uid := session.uid.value;
      && GamesPlayed(StatsOf(r.value, uid)) == GamesPlayed(StatsOf(store, uid)) + 1
      && TotalScore(StatsOf(r.value, uid)) == TotalScore(StatsOf(store, uid)) + score
      && Board(r.value, game) == Board(store, game) + [ScoreEntry(EntryName(customName, session), score, uid, now)]
    ensures r.Ok? ==> forall u :: u != session.uid.value ==> StatsOf(r.value, u) == StatsOf(store, u)
    ensures r.Ok? ==> forall g :: g != game ==> Board(r.value, g) == Board(store, g)
  {
    if !JsText.Truthy(session.uid) then Err(NotLoggedIn)
    else
      var uid := session.uid.value;
      var entry := ScoreEntry(EntryName(customName, session), score, uid, now);
      Ok(Store(
        store.stats[uid := StatsUpdate(StatsOf(store, uid), score)],
        store.leaderboards[game := Board(store, game) + [entry]]))
  }

  /** One submission of a series: the game and the score. */
  datatype Submission = Submission(game: string, score: int)

  /** The store after the signed-in `session` submits each of `subs` in turn. */
  function SubmitAll(session: Session, subs: seq<Submission>, now: int, store: Store): Store
    requires JsText.Truthy(session.uid)
    decreases |subs|
  {
    if subs == [] then store
    else
      var next := SubmitScore(session, subs[0].game, subs[0].score, None, now, store);
      SubmitAll(session, subs[1..], now, next.value)
  }

  /** The sum of the scores of a series. */
  function ScoreSum(subs: seq<Submission>): int {
    if subs == [] then 0 else subs[0].score + ScoreSum(subs[1..])
  }

  /** After any series, games played grew by its length and total score by its sum: no update is lost. */
  lemma {:induction false} SeriesAccumulates(session: Session, subs: seq<Submission>, now: int, store: Store)
    requires JsText.Truthy(session.uid)
    ensures var after := SubmitAll(session, subs, now, store); var uid := session.uid.value;
      && GamesPlayed(StatsOf(after, uid)) == GamesPlayed(StatsOf(store, uid)) + |subs|
      && TotalScore(StatsOf(after, uid)) == TotalScore(StatsOf(store, uid)) + ScoreSum(subs)
    decreases |subs|
  {
    if subs != [] {
      var next := SubmitScore(session, subs[0].game, subs[0].score, None, now, store);
      SeriesAccumulates(session, subs[1..], now, next.value);
    }
  }

  /** Leaderboards only grow: every board before a series is a prefix of the same board after it. */
  lemma {:induction false} BoardsAppendOnly(session: Session, subs: seq<Submission>, now: int, store: Store, game: string)
    requires JsText.Truthy(session.uid)
    ensures var before := Board(store, game);
      before <= Board(SubmitAll(session, subs, now, store), game)
    decreases |subs|
  {
    if subs != [] {
      var next := SubmitScore(session, subs[0].game, subs[0].score, None, now, store);
      BoardsAppendOnly(session, subs[1..], now, next.value, game);
    }
  }

  /** The worked example: Alice (`u1`) at 3 games / 100 points scores 42 at memory. */
  lemma AliceExample(now: int)
    ensures var store := Store(map["u1" := StoredStats(Some(3), Some(100))], map[]);
      var r := SubmitScore(Session(Some("u1"), Some("Alice")), "memory", 42, None, now, store);
      && r.Ok?
      && r.value.stats["u1"] == StoredStats(Some(4), Some(142))
      && Board(r.value, "memory") == [ScoreEntry("Alice", 42, "u1", now)]
  {
  }
}
