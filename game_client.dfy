/**
 * The record-to-summary mapping of `listActive` in src/lib/api/GameClient.ts:
 * each raw record of GET /game/active becomes a `GameSummary`.
 */
module GameClient {
  import opened Options

  /** A parsed JSON value, as `res.json()` produces it. */
  datatype Json =
    | JNull
    | JBool(b: bool)
    | JNumber(n: real)
    | JString(str: string)
    | JArray(elems: seq<Json>)
    | JObject(fields: map<string, Json>)

  /**
   * The summary the UI receives. TypeScript declares `playerAId: string`, but
   * nothing checks it at run time: it is whatever `players[0]` holds.
   */
  datatype GameSummary = GameSummary(id: string, playerAId: Json)

  /** What a JavaScript expression evaluates to, or the exception it throws. */
  datatype Outcome<T> = Ok(value: T) | TypeError

  /** The player id shown when a record names no players. */
  const Unknown: string := "unknown"

  /**
   * Property read `g.key` on a record: the field of an object, `undefined`
   * (None) for any other value. A read on `null` throws instead; that case is
   * handled by `SummarizeAsWritten`.
   */
  function Property(g: Json, key: string): Option<Json>
  {
    if g.JObject? && key in g.fields then Some(g.fields[key]) else None
  }

  /** `typeof g.gameId === 'string'` */
  ghost predicate HasStringGameId(g: Json)
  {
    g.JObject? && "gameId" in g.fields && g.fields["gameId"].JString?
  }

  /** `Array.isArray(g.players) && g.players.length > 0` */
  ghost predicate HasPlayers(g: Json)
  {
    g.JObject? && "players" in g.fields && g.fields["players"].JArray?
    && |g.fields["players"].elems| > 0
  }

  /**
   * The body of `raw.map`, for any record including `null` (see
   * `SummarizeAsWritten` for what the code does with `null`). `serialize` is
   * `JSON.stringify`, left uninterpreted.
   */
  function Summarize(g: Json, serialize: Json -> string): (r: GameSummary)
    ensures HasStringGameId(g) ==> r.id == g.fields["gameId"].str
    ensures !HasStringGameId(g) ==> r.id == serialize(g)
    ensures HasPlayers(g) ==> r.playerAId == g.fields["players"].elems[0]
    ensures !HasPlayers(g) ==> r.playerAId == JString(Unknown)
  {
    var id :=
      match Property(g, "gameId")
      case Some(JString(s)) => s
      case _ => serialize(g);
    var playerAId :=
      match Property(g, "players")
      case Some(JArray(players)) => if |players| > 0 then players[0] else JString(Unknown)
      case _ => JString(Unknown);
    GameSummary(id, playerAId)
  }

  /** The serialisation is consulted only when the record has no string `gameId`. */
  lemma SerializeOnlyAsFallback(g: Json, s1: Json -> string, s2: Json -> string)
    requires HasStringGameId(g) || s1(g) == s2(g)
    ensures Summarize(g, s1) == Summarize(g, s2)
  {
  }

  /** `listActive` after the fetch: one summary per raw record, in order. */
  function ListActive(raw: seq<Json>, serialize: Json -> string): (r: seq<GameSummary>)
    ensures |r| == |raw|
  {
    if raw == [] then []
    else [Summarize(raw[0], serialize)] + ListActive(raw[1..], serialize)
  }

  /** The i-th summary is computed from the i-th raw record alone. */
  lemma {:induction false} ListActiveAt(raw: seq<Json>, serialize: Json -> string, i: nat)
    requires i < |raw|
    ensures ListActive(raw, serialize)[i] == Summarize(raw[i], serialize)
  {
    if i > 0 {
      ListActiveAt(raw[1..], serialize, i - 1);
    }
  }

  /** Mapping distributes over concatenation: no record is dropped, moved or merged. */
  lemma {:induction false} ListActiveAppend(a: seq<Json>, b: seq<Json>, serialize: Json -> string)
    ensures ListActive(a + b, serialize) == ListActive(a, serialize) + ListActive(b, serialize)
  {
    if a == [] {
      assert a + b == b;
    } else {
      assert (a + b)[1..] == a[1..] + b;
      ListActiveAppend(a[1..], b, serialize);
    }
  }

  /**
   * The body of `raw.map` as written: `g.gameId` on a `null` element throws a
   * TypeError; on every other value it agrees with `Summarize`.
   */
  function SummarizeAsWritten(g: Json, serialize: Json -> string): Outcome<GameSummary>
  {
    if g.JNull? then TypeError else Ok(Summarize(g, serialize))
  }

  /** `raw.map(...)` as written: it throws as soon as one element throws. */
  function ListActiveAsWritten(raw: seq<Json>, serialize: Json -> string): (r: Outcome<seq<GameSummary>>)
    ensures r.Ok? <==> forall i :: 0 <= i < |raw| ==> !raw[i].JNull?
    ensures r.Ok? ==> r.value == ListActive(raw, serialize)
  {
    if raw == [] then Ok([])
    else
      match SummarizeAsWritten(raw[0], serialize)
      case TypeError => TypeError
      case Ok(s) =>
        match ListActiveAsWritten(raw[1..], serialize)
        case TypeError => TypeError
        case Ok(rest) => Ok([s] + rest)
  }

  /** The input that shows it: a response `[null]` makes `listActive` throw. */
  lemma NullRecordThrows(serialize: Json -> string)
    ensures ListActiveAsWritten([JNull], serialize).TypeError?
    ensures ListActive([JNull], serialize) == [GameSummary(serialize(JNull), JString(Unknown))]
  {
  }
}
