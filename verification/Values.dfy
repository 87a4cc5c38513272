/** The plain data the modules share: optional values, JSON as it comes off the wire,
    players, viewers and scores, and the text functions the code takes from its
    JavaScript runtime. */
module Values {

  datatype Option<+T> = None | Some(value: T)

  type PlayerId = string
  type Token = string
  type GameId = string
  type RoomCode = string

  datatype Player = Player(id: PlayerId, nickname: string, joinedDuringGame: bool, spectator: bool)

  datatype Viewer = Host | Seat(id: PlayerId)

  datatype Score = Score(playerId: PlayerId, points: int)

  const MIN_PLAYERS: nat := 2
  const MAX_PLAYERS: nat := 50

  function IdOf(p: Player): PlayerId { p.id }

  function Ids(players: seq<Player>): set<PlayerId> {
    set p | p in players :: p.id
  }

  ghost predicate DistinctIds(players: seq<Player>) {
    forall i, j :: 0 <= i < j < |players| ==> players[i].id != players[j].id
  }

  // ------------------------------------------------------------------ JSON

  /** A parsed JSON value (`unknown` in the source). */
  datatype Json =
    | Null
    | Bool(b: bool)
    | Num(n: real)
    | Str(s: string)
    | Arr(items: seq<Json>)
    | Obj(fields: map<string, Json>)

  /** A non-null object; an array is one too. */
  predicate IsRecord(j: Json) {
    j.Arr? || j.Obj?
  }

  /** Property access `j.name`, undefined when absent. The names the code asks for are
      never array indices, so an array has none of them. */
  function Field(j: Json, name: string): Option<Json> {
    if j.Obj? && name in j.fields then Some(j.fields[name]) else None
  }

  /** `typeof j[name] === 'string'`, with the string. */
  function StrField(j: Json, name: string): Option<string> {
    match Field(j, name)
    case Some(Str(s)) => Some(s)
    case _ => None
  }

  // --------------------------------------------------------- runtime text

  // Functions of the JavaScript runtime: fixed, but nothing is known of them. A lemma
  // that needs a law of one of them asks for it in its requires clause.

  /** text.ts `boundedText`: trimmed and capped, '' when nothing visible is left. */
  const BoundedText: (string, nat) -> string
  /** `raw.replace(/\s+/g, ' ')` */
  const CollapseSpace: string -> string
  /** `toLowerCase` */
  const Lower: string -> string
  /** `a.localeCompare(b)` */
  const LocaleCompare: (string, string) -> int
  /** `JSON.stringify` of a parsed value. */
  const Stringify: Json -> string

  /** localeCompare read as a total order on texts that ties only on equal texts. */
  ghost predicate CompareIsTotalOrder() {
    && (forall a, b :: LocaleCompare(a, b) == 0 <==> a == b)
    && (forall a, b :: LocaleCompare(a, b) < 0 <==> LocaleCompare(b, a) > 0)
    && (forall a, b, c :: LocaleCompare(a, b) <= 0 && LocaleCompare(b, c) <= 0 ==> LocaleCompare(a, c) <= 0)
  }

  // ------------------------------------------------------- decimal numerals

  /** A template literal's rendering of a natural number. */
  function Digits(n: nat): (s: string)
    ensures |s| > 0
  {
    if n < 10 then ['0' + n as char] else Digits(n / 10) + ['0' + (n % 10) as char]
  }

  function Numeral(s: string): int {
    if s == [] then 0 else Numeral(s[..|s| - 1]) * 10 + (s[|s| - 1] as int - '0' as int)
  }

  lemma {:induction false} DigitsRoundTrip(n: nat)
    ensures Numeral(Digits(n)) == n
  {
    var s := Digits(n);
    if n < 10 {
      assert s[..0] == [];
    } else {
      DigitsRoundTrip(n / 10);
      assert s[..|s| - 1] == Digits(n / 10);
    }
  }

  lemma DigitsInjective(m: nat, n: nat)
    requires Digits(m) == Digits(n)
    ensures m == n
  {
    DigitsRoundTrip(m);
    DigitsRoundTrip(n);
  }
}
