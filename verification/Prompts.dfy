/** packages/games/src/promptConfig.ts: reading a host-authored question set out of an
    opaque config blob, and walking it one question a round. */
module Prompts {
  import opened Collections
  import opened Values

  const MAX_PROMPTS: nat := 50
  const MAX_LEN: nat := 200
  const MAX_SCAN: nat := MAX_PROMPTS * 4

  function Text(item: Json): string
    requires item.Str?
  {
    BoundedText(item.s, MAX_LEN)
  }

  predicate Usable(item: Json) {
    item.Str? && Text(item) != ""
  }

  function Key(item: Json): string
    requires item.Str?
  {
    Lower(Text(item))
  }

  function Keys(texts: seq<string>): set<string> {
    set t | t in texts :: Lower(t)
  }

  function Scanned(items: seq<Json>): seq<Json> {
    if |items| <= MAX_SCAN then items else items[..MAX_SCAN]
  }

  /** What the scan has collected after the given items. */
  function Walk(items: seq<Json>): seq<string> {
    if items == [] then []
    else
      var texts := Walk(items[..|items| - 1]);
      var item := items[|items| - 1];
      if |texts| >= MAX_PROMPTS || !Usable(item) || Key(item) in Keys(texts) then texts
      else texts + [Text(item)]
  }

  function Clean(raw: Json): Option<seq<string>> {
    if !raw.Arr? then None
    else
      var texts := Walk(Scanned(raw.items));
      if texts == [] then None else Some(texts)
  }

  lemma {:induction false} WalkStopsWhenFull(items: seq<Json>, k: nat)
    requires k <= |items| && |Walk(items[..k])| >= MAX_PROMPTS
    ensures Walk(items) == Walk(items[..k])
    decreases |items| - k
  {
    if k < |items| {
      assert items[..k + 1][..k] == items[..k];
      WalkStopsWhenFull(items, k + 1);
    } else {
      assert items[..k] == items;
    }
  }

  lemma WalkStep(items: seq<Json>, i: nat)
    requires i < |items|
    ensures var texts := Walk(items[..i]);
      Walk(items[..i + 1]) ==
      if |texts| >= MAX_PROMPTS || !Usable(items[i]) || Key(items[i]) in Keys(texts) then texts
      else texts + [Text(items[i])]
  {
    assert items[..i + 1][..i] == items[..i];
  }

  lemma KeysGrow(texts: seq<string>, text: string)
    ensures Keys([]) == {} && Keys(texts + [text]) == Keys(texts) + {Lower(text)}
  {
  }

  /** The source's loop: a list and a set of seen keys grow together, and a full list
      ends the scan. */
  method CleanLoop(raw: Json) returns (r: Option<seq<string>>)
    ensures r == Clean(raw)
  {
    hide Keys;
    if !raw.Arr? {
      return None;
    }
    var items := Scanned(raw.items);
    var seen: set<string> := {};
    var cleaned: seq<string> := [];
    KeysGrow([], "");
    for i := 0 to |items|
      invariant cleaned == Walk(items[..i])
      invariant seen == Keys(cleaned)
      invariant |cleaned| < MAX_PROMPTS
    {
      WalkStep(items, i);
      var item := items[i];
      if !item.Str? {
        continue;
      }
      var text := Text(item);
      var key := Lower(text);
      if |text| == 0 || key in seen {
        continue;
      }
      KeysGrow(cleaned, text);
      seen := seen + {key};
      cleaned := cleaned + [text];
      if |cleaned| >= MAX_PROMPTS {
        WalkStopsWhenFull(items, i + 1);
        return Some(cleaned);
      }
    }
    assert items[..|items|] == items;
    r := if |cleaned| > 0 then Some(cleaned) else None;
  }

  // ------------------------------------------- what the cleaned list holds

  /** The i-th item is usable and no earlier usable item has its key. */
  ghost predicate FirstUse(items: seq<Json>, i: nat)
    requires i < |items|
  {
    Usable(items[i]) && forall j :: 0 <= j < i && Usable(items[j]) ==> Key(items[j]) != Key(items[i])
  }

  /** The texts of all first uses, in order. */
  ghost function FirstUses(items: seq<Json>): seq<string> {
    if items == [] then []
    else FirstUses(items[..|items| - 1])
         + if FirstUse(items, |items| - 1) then [Text(items[|items| - 1])] else []
  }

  function Truncate(texts: seq<string>): seq<string> {
    if |texts| <= MAX_PROMPTS then texts else texts[..MAX_PROMPTS]
  }

  ghost predicate KeySeen(items: seq<Json>, key: string) {
    exists j :: 0 <= j < |items| && Usable(items[j]) && Key(items[j]) == key
  }

  lemma {:induction false} FirstUsesCoverKeys(items: seq<Json>)
    ensures forall key :: key in Keys(FirstUses(items)) <==> KeySeen(items, key)
  {
    if items != [] {
      var front, last := items[..|items| - 1], items[|items| - 1];
      FirstUsesCoverKeys(front);
      var before := FirstUses(front);
      forall key
        ensures KeySeen(items, key) <==> KeySeen(front, key) || (Usable(last) && Key(last) == key)
      {
        if KeySeen(items, key) {
          var j :| 0 <= j < |items| && Usable(items[j]) && Key(items[j]) == key;
          if j < |front| {
            assert front[j] == items[j];
          }
        }
        if KeySeen(front, key) {
          var j :| 0 <= j < |front| && Usable(front[j]) && Key(front[j]) == key;
          assert items[j] == front[j];
        }
        if Usable(last) && Key(last) == key {
          assert items[|items| - 1] == last;
        }
      }
      if FirstUse(items, |items| - 1) {
        assert Keys(before + [Text(last)]) == Keys(before) + {Key(last)};
      } else {
        assert before + [] == before;
        if Usable(last) {
          var j :| 0 <= j < |front| && Usable(items[j]) && Key(items[j]) == Key(last);
          assert front[j] == items[j];
          assert KeySeen(front, Key(last));
        }
      }
    }
  }

  lemma FirstUseIffNewKey(items: seq<Json>)
    requires items != [] && Usable(items[|items| - 1])
    ensures FirstUse(items, |items| - 1)
      <==> !KeySeen(items[..|items| - 1], Key(items[|items| - 1]))
  {
    var front, key := items[..|items| - 1], Key(items[|items| - 1]);
    if KeySeen(front, key) {
      var j :| 0 <= j < |front| && Usable(front[j]) && Key(front[j]) == key;
      assert items[j] == front[j];
    }
    if !FirstUse(items, |items| - 1) {
      var j :| 0 <= j < |items| - 1 && Usable(items[j]) && Key(items[j]) == key;
      assert front[j] == items[j];
    }
  }

  /** The walk returns the first use of every usable key, in order, up to the cap:
      nothing usable is lost before the list is full and nothing is repeated. */
  lemma {:induction false} WalkIsFirstUses(items: seq<Json>)
    ensures Walk(items) == Truncate(FirstUses(items))
  {
    if items != [] {
      var front, last := items[..|items| - 1], items[|items| - 1];
      WalkIsFirstUses(front);
      FirstUsesCoverKeys(front);
      if Usable(last) {
        FirstUseIffNewKey(items);
      }
    }
  }

  /** What an item of a saved list says: its text, trimmed and capped, or nothing. */
  function Says(item: Json): string {
    match item case Str(s) => BoundedText(s, 200) case _ => ""
  }

  /** The first item of those that say something and say the same but for case. */
  ghost predicate SaysFirst(items: seq<Json>, i: nat)
    requires i < |items|
  {
    && Says(items[i]) != ""
    && forall j :: 0 <= j < i && Says(items[j]) != "" ==> Lower(Says(items[j])) != Lower(Says(items[i]))
  }

  ghost function SaidFirst(items: seq<Json>): seq<string> {
    if items == [] then []
    else SaidFirst(items[..|items| - 1])
         + if SaysFirst(items, |items| - 1) then [Says(items[|items| - 1])] else []
  }

  lemma {:induction false} FirstUsesAreSaid(items: seq<Json>)
    ensures FirstUses(items) == SaidFirst(items)
  {
    if items != [] {
      FirstUsesAreSaid(items[..|items| - 1]);
      var last := items[|items| - 1];
      assert Usable(last) <==> Says(last) != "";
      assert forall j :: 0 <= j < |items| ==> (Usable(items[j]) <==> Says(items[j]) != "");
      assert forall j :: 0 <= j < |items| && items[j].Str? ==> Key(items[j]) == Lower(Says(items[j]));
    }
  }

  /** The questions of a session: of a config that is an object with a list under
      `prompts`, the first fifty different things its first two hundred items say; the
      built-in ones if that is nothing, or for any other config. */
  lemma BankIsTheSavedSet(config: Option<Json>, builtin: seq<string>)
    ensures
      if config.Some? && config.value.Obj? && "prompts" in config.value.fields && config.value.fields["prompts"].Arr?
      then
        var items := config.value.fields["prompts"].items;
        var said := SaidFirst(if |items| <= 200 then items else items[..200]);
        Bank(config, builtin) == if said == [] then builtin else if |said| <= 50 then said else said[..50]
      else Bank(config, builtin) == builtin
  {
    if HasPrompts(config) && config.value.fields["prompts"].Arr? {
      var items := Scanned(config.value.fields["prompts"].items);
      WalkIsFirstUses(items);
      FirstUsesAreSaid(items);
    }
  }

  ghost predicate DistinctKeys(texts: seq<string>) {
    forall i, j :: 0 <= i < j < |texts| ==> Lower(texts[i]) != Lower(texts[j])
  }

  lemma {:induction false} WalkIsASet(items: seq<Json>)
    ensures |Walk(items)| <= MAX_PROMPTS
    ensures forall t :: t in Walk(items) ==> t != ""
    ensures DistinctKeys(Walk(items))
  {
    if items != [] {
      var texts := Walk(items[..|items| - 1]);
      WalkIsASet(items[..|items| - 1]);
      assert forall i :: 0 <= i < |texts| ==> Lower(texts[i]) in Keys(texts);
    }
  }

  // ------------------------------------------------------ a round's prompt

  /** `typeof config === 'object' && config !== null && 'prompts' in config` */
  predicate HasPrompts(config: Option<Json>) {
    config.Some? && config.value.Obj? && "prompts" in config.value.fields
  }

  function ValidPrompts(config: Option<Json>): Option<seq<string>> {
    if HasPrompts(config) then Clean(config.value.fields["prompts"]) else None
  }

  function Bank(config: Option<Json>, builtin: seq<string>): seq<string> {
    match ValidPrompts(config)
    case Some(prompts) => prompts
    case None => builtin
  }

  /** `bank[deps.round - 1] ?? builtin[0]` */
  function ChoosePrompt(config: Option<Json>, round: int, builtin: seq<string>): string
    requires builtin != []
  {
    var bank := Bank(config, builtin);
    if 0 <= round - 1 < |bank| then bank[round - 1] else builtin[0]
  }

  function PromptCount(config: Option<Json>, builtin: seq<string>): nat {
    |Bank(config, builtin)|
  }

  /** A session's questions are never empty and never repeat: an authored set is free of
      case-insensitive repeats, and a built-in bank is used as it is. */
  lemma BankIsDistinct(config: Option<Json>, builtin: seq<string>)
    requires builtin != [] && Distinct(builtin)
    ensures Bank(config, builtin) != [] && Distinct(Bank(config, builtin))
  {
    if HasPrompts(config) && ValidPrompts(config).Some? {
      var items := Scanned(config.value.fields["prompts"].items);
      WalkIsASet(items);
      var texts := Walk(items);
      forall i, j | 0 <= i < j < |texts| ensures texts[i] != texts[j] {
        assert Lower(texts[i]) != Lower(texts[j]);
      }
    }
  }

  // -------------------------------------------------------------- the memo

  /** A config object as the room holds it: one heap object, never written after parsing. */
  class ConfigObject {
    const value: Json
    constructor (value: Json)
      ensures this.value == value
    {
      this.value := value;
    }
  }

  /** The module-level WeakMap. An entry may vanish with its key, which nobody can see. */
  class PromptMemo {
    var cleaned: map<ConfigObject, Option<seq<string>>>

    /** Every remembered answer is the one cleaning would give again. */
    ghost predicate Valid()
      reads this
    {
      forall o :: o in cleaned ==>
        && HasPrompts(Some(o.value))
        && cleaned[o] == Clean(o.value.fields["prompts"])
    }

    constructor ()
      ensures Valid() && cleaned == map[]
    {
      cleaned := map[];
    }

    method Read(config: ConfigObject) returns (r: Option<seq<string>>)
      requires Valid()
      modifies this
      ensures Valid()
      ensures r == ValidPrompts(Some(config.value))
      ensures forall o :: o in old(cleaned) ==> o in cleaned && cleaned[o] == old(cleaned)[o]
      ensures HasPrompts(Some(config.value)) ==> cleaned.Keys == old(cleaned).Keys + {config}
      ensures !HasPrompts(Some(config.value)) ==> cleaned == old(cleaned)
    {
      if !HasPrompts(Some(config.value)) {
        return None;
      }
      if config in cleaned {
        return cleaned[config];
      }
      r := CleanLoop(config.value.fields["prompts"]);
      cleaned := cleaned[config := r];
    }
  }
}
