/** Anonymity of the answer cards. Freezing the drafts is a bijection, what is published
    of it depends only on which texts were written, and no view of the guess phase tells
    who wrote a card, except a player's own. */
module Cards {
  import opened Collections
  import opened Values
  import opened GameEvents
  import opened GuessWho

  // ------------------------------------------------------------ the sort

  lemma {:induction false} InsertKeeps(sorted: seq<Entry>, e: Entry, salt: nat)
    ensures multiset(Insert(sorted, e, salt)) == multiset(sorted) + multiset{e}
  {
    if sorted != [] {
      var front, last := sorted[..|sorted| - 1], sorted[|sorted| - 1];
      assert sorted == front + [last];
      InsertKeeps(front, e, salt);
    }
  }

  lemma {:induction false} SortKeeps(entries: seq<Entry>, salt: nat)
    ensures multiset(SortEntries(entries, salt)) == multiset(entries)
  {
    if entries != [] {
      var front, last := entries[..|entries| - 1], entries[|entries| - 1];
      assert entries == front + [last];
      SortKeeps(front, salt);
      InsertKeeps(SortEntries(front, salt), last, salt);
    }
  }

  ghost predicate TextsInOrder(s: seq<Entry>) {
    forall i, j :: 0 <= i < j < |s| ==> LocaleCompare(s[i].text, s[j].text) <= 0
  }

  lemma InsertMembers(sorted: seq<Entry>, e: Entry, salt: nat)
    ensures forall x :: x in Insert(sorted, e, salt) <==> x in sorted || x == e
  {
    InsertKeeps(sorted, e, salt);
    forall x ensures x in Insert(sorted, e, salt) <==> x in sorted || x == e {
      assert x in Insert(sorted, e, salt) <==> x in multiset(Insert(sorted, e, salt));
      assert x in sorted <==> x in multiset(sorted);
    }
  }

  ghost predicate Bounded(s: seq<Entry>, text: string) {
    forall x :: x in s ==> LocaleCompare(x.text, text) <= 0
  }

  lemma BoundRises(s: seq<Entry>, low: string, high: string)
    requires CompareIsTotalOrder() && Bounded(s, low) && LocaleCompare(low, high) <= 0
    ensures Bounded(s, high)
  {
  }

  lemma AppendInOrder(s: seq<Entry>, e: Entry)
    requires TextsInOrder(s) && Bounded(s, e.text)
    ensures TextsInOrder(s + [e])
  {
  }

  /** A new last entry goes in before it and stays below it. */
  lemma BelowLast(sorted: seq<Entry>, e: Entry, salt: nat, text: string)
    requires Bounded(sorted, text) && LocaleCompare(e.text, text) <= 0
    ensures Bounded(Insert(sorted, e, salt), text)
  {
    InsertMembers(sorted, e, salt);
    hide Insert;
  }

  lemma OrderedMeansBounded(front: seq<Entry>, last: Entry)
    requires TextsInOrder(front + [last])
    ensures TextsInOrder(front) && Bounded(front, last.text)
  {
    var s := front + [last];
    assert forall i :: 0 <= i < |front| ==> s[i] == front[i];
    assert s[|front|] == last;
  }

  lemma {:induction false} InsertInOrder(sorted: seq<Entry>, e: Entry, salt: nat)
    requires CompareIsTotalOrder() && TextsInOrder(sorted)
    ensures TextsInOrder(Insert(sorted, e, salt))
  {
    hide CompareIsTotalOrder, Compare, Bounded, TextsInOrder;
    if sorted == [] {
      OneIsInOrder(e);
    } else {
      var front, last := sorted[..|sorted| - 1], sorted[|sorted| - 1];
      assert sorted == front + [last];
      CompareFollowsText(last, e, salt);
      OrderedMeansBounded(front, last);
      if Compare(last, e, salt) <= 0 {
        BoundRises(front, last.text, e.text);
        LastIsBounded(front, last, e.text);
        AppendInOrder(sorted, e);
      } else {
        InsertInOrder(front, e, salt);
        BelowLast(front, e, salt, last.text);
        AppendInOrder(Insert(front, e, salt), last);
      }
    }
  }

  lemma OneIsInOrder(e: Entry)
    ensures TextsInOrder([e])
  {
  }

  lemma LastIsBounded(front: seq<Entry>, last: Entry, text: string)
    requires Bounded(front, text) && LocaleCompare(last.text, text) <= 0
    ensures Bounded(front + [last], text)
  {
  }

  lemma CompareFollowsText(a: Entry, b: Entry, salt: nat)
    requires CompareIsTotalOrder()
    ensures if Compare(a, b, salt) <= 0 then LocaleCompare(a.text, b.text) <= 0
            else LocaleCompare(b.text, a.text) <= 0
  {
  }

  lemma {:induction false} SortInOrder(entries: seq<Entry>, salt: nat)
    requires CompareIsTotalOrder()
    ensures TextsInOrder(SortEntries(entries, salt))
  {
    if entries != [] {
      SortInOrder(entries[..|entries| - 1], salt);
      InsertInOrder(SortEntries(entries[..|entries| - 1], salt), entries[|entries| - 1], salt);
    }
  }

  // ------------------------------------------------------ texts determine

  function TextOf(e: Entry): string { e.text }

  ghost predicate Ordered(texts: seq<string>) {
    forall i, j :: 0 <= i < j < |texts| ==> LocaleCompare(texts[i], texts[j]) <= 0
  }

  lemma DropLast<T>(s: seq<T>)
    requires s != []
    ensures multiset(s[..|s| - 1]) == multiset(s) - multiset{s[|s| - 1]}
  {
    assert s == s[..|s| - 1] + [s[|s| - 1]];
  }

  lemma SameLast(a: seq<string>, b: seq<string>)
    requires CompareIsTotalOrder() && Ordered(a) && Ordered(b)
    requires a != [] && b != [] && multiset(a) == multiset(b)
    ensures a[|a| - 1] == b[|b| - 1]
  {
    var x, y := a[|a| - 1], b[|b| - 1];
    assert x in multiset(b) && y in multiset(a);
    var i :| 0 <= i < |b| && b[i] == x;
    var j :| 0 <= j < |a| && a[j] == y;
  }

  lemma SameLength<T>(a: seq<T>, b: seq<T>)
    requires multiset(a) == multiset(b)
    ensures |a| == |b|
  {
    assert |multiset(a)| == |a|;
    assert |multiset(b)| == |b|;
  }

  lemma OrderedPrefix(s: seq<string>)
    requires s != [] && Ordered(s)
    ensures Ordered(s[..|s| - 1])
  {
  }

  /** An ordered list of texts is determined by its multiset. */
  lemma {:induction false} OrderedIsUnique(a: seq<string>, b: seq<string>)
    requires CompareIsTotalOrder() && Ordered(a) && Ordered(b)
    requires multiset(a) == multiset(b)
    ensures a == b
  {
    hide CompareIsTotalOrder, Ordered;
    SameLength(a, b);
    if a != [] {
      SameLast(a, b);
      OrderedPrefix(a);
      OrderedPrefix(b);
      DropLast(a);
      DropLast(b);
      var x, frontA, frontB := a[|a| - 1], a[..|a| - 1], b[..|b| - 1];
      assert a == frontA + [x] && b == frontB + [x];
      OrderedIsUnique(frontA, frontB);
    }
  }

  lemma MapDropAt(t: seq<Entry>, i: nat)
    requires i < |t|
    ensures multiset(t[..i] + t[i + 1..]) == multiset(t) - multiset{t[i]}
    ensures multiset(Map(t, TextOf)) == multiset(Map(t[..i] + t[i + 1..], TextOf)) + multiset{t[i].text}
  {
    assert t == t[..i] + [t[i]] + t[i + 1..];
    assert Map(t, TextOf) == Map(t[..i], TextOf) + [t[i].text] + Map(t[i + 1..], TextOf);
    assert Map(t[..i] + t[i + 1..], TextOf) == Map(t[..i], TextOf) + Map(t[i + 1..], TextOf);
  }

  lemma {:induction false} MapMultiset(s: seq<Entry>, t: seq<Entry>)
    requires multiset(s) == multiset(t)
    ensures multiset(Map(s, TextOf)) == multiset(Map(t, TextOf))
  {
    assert |multiset(s)| == |s| && |multiset(t)| == |t|;
    if s != [] {
      var n := |s| - 1;
      assert s[n] in multiset(t);
      var i :| 0 <= i < |t| && t[i] == s[n];
      MapDropAt(s, n);
      MapDropAt(t, i);
      assert s[..n] + s[n + 1..] == s[..n];
      MapMultiset(s[..n], t[..i] + t[i + 1..]);
    }
  }

  /** The texts a round collected, as a multiset. */
  function Texts(drafts: Record<string>): multiset<string> {
    multiset(Map(Entries(drafts), TextOf))
  }

  /** The published ids and texts depend only on the multiset of texts: not on who wrote
      them, in which order, under which ids, or on the round's salt. */
  lemma PublishedDependsOnTextsOnly(d1: Record<string>, salt1: nat, d2: Record<string>, salt2: nat)
    requires CompareIsTotalOrder()
    requires Texts(d1) == Texts(d2)
    ensures Published(BuildCards(d1, salt1)) == Published(BuildCards(d2, salt2))
  {
    var s1, s2 := SortEntries(Entries(d1), salt1), SortEntries(Entries(d2), salt2);
    SortKeeps(Entries(d1), salt1);
    SortKeeps(Entries(d2), salt2);
    MapMultiset(s1, Entries(d1));
    MapMultiset(s2, Entries(d2));
    SortInOrder(Entries(d1), salt1);
    SortInOrder(Entries(d2), salt2);
    OrderedIsUnique(Map(s1, TextOf), Map(s2, TextOf));
    assert |s1| == |Map(s1, TextOf)| == |s2|;
    forall i | 0 <= i < |s1| ensures s1[i].text == s2[i].text {
      assert Map(s1, TextOf)[i] == s1[i].text;
      assert Map(s2, TextOf)[i] == s2[i].text;
    }
  }

  // ----------------------------------------------------------- bijection

  function AuthorOf(c: AnswerCard): PlayerId { c.authorId }

  function EntryOf(c: AnswerCard): Entry { Entry(c.authorId, c.text) }

  ghost predicate DistinctCardIds(cards: seq<AnswerCard>) {
    forall i, j :: 0 <= i < j < |cards| ==> cards[i].id != cards[j].id
  }

  /** Every draft becomes exactly one card with its author and text, every card comes
      from a draft, and no two cards share an id. */
  lemma CardsAreTheDrafts(drafts: Record<string>, salt: nat)
    ensures multiset(Map(BuildCards(drafts, salt), EntryOf)) == multiset(Entries(drafts))
    ensures |BuildCards(drafts, salt)| == |drafts.keys|
    ensures DistinctCardIds(BuildCards(drafts, salt))
    ensures forall c :: c in BuildCards(drafts, salt) ==>
      c.authorId in drafts.vals && drafts.vals[c.authorId] == c.text
    ensures forall id :: id in drafts.vals ==>
      exists c :: c in BuildCards(drafts, salt) && c.authorId == id
  {
    var cards, sorted := BuildCards(drafts, salt), SortEntries(Entries(drafts), salt);
    SortKeeps(Entries(drafts), salt);
    assert Map(cards, EntryOf) == sorted;
    assert |multiset(sorted)| == |multiset(Entries(drafts))|;
    forall i, j | 0 <= i < j < |cards| ensures cards[i].id != cards[j].id {
      if cards[i].id == cards[j].id {
        assert CardId(i)[1..] == Digits(i) && CardId(j)[1..] == Digits(j);
        DigitsInjective(i, j);
      }
    }
    forall c | c in cards ensures c.authorId in drafts.vals && drafts.vals[c.authorId] == c.text {
      var i :| 0 <= i < |cards| && cards[i] == c;
      assert sorted[i] in multiset(Entries(drafts));
    }
    forall id | id in drafts.vals ensures exists c :: c in cards && c.authorId == id {
      var k :| 0 <= k < |drafts.keys| && drafts.keys[k] == id;
      assert Entries(drafts)[k] in multiset(sorted);
      var i :| 0 <= i < |sorted| && sorted[i] == Entries(drafts)[k];
      assert cards[i].authorId == id && cards[i] in cards;
    }
  }

  /** Authors are distinct: a player's own card is the only one they wrote. */
  lemma OneCardEach(drafts: Record<string>, salt: nat)
    ensures Distinct(Map(BuildCards(drafts, salt), AuthorOf))
  {
    var sorted := SortEntries(Entries(drafts), salt);
    SortKeeps(Entries(drafts), salt);
    var cards := BuildCards(drafts, salt);
    forall i, j | 0 <= i < j < |cards| ensures cards[i].authorId != cards[j].authorId {
      if cards[i].authorId == cards[j].authorId {
        CardsAreTheDrafts(drafts, salt);
        assert cards[i] in cards && cards[j] in cards;
        var e := Entry(cards[i].authorId, drafts.vals[cards[i].authorId]);
        assert sorted[i] == e && sorted[j] == e;
        TwiceInMultiset(sorted, e, i, j);
        var m, n := FirstTwo(Entries(drafts), e);
      }
    }
  }

  lemma TwiceInMultiset(s: seq<Entry>, e: Entry, i: nat, j: nat)
    requires i < j < |s| && s[i] == e && s[j] == e
    ensures multiset(s)[e] >= 2
  {
    assert s == s[..j] + [e] + s[j + 1..];
    assert s[..j][i] == e;
    assert e in multiset(s[..j]);
  }

  lemma {:induction false} FirstTwo(s: seq<Entry>, e: Entry) returns (m: nat, n: nat)
    requires multiset(s)[e] >= 2
    ensures m < n < |s| && s[m] == e && s[n] == e
  {
    var front, last := s[..|s| - 1], s[|s| - 1];
    assert s == front + [last];
    if last == e {
      assert e in multiset(front);
      m :| 0 <= m < |front| && front[m] == e;
      n := |s| - 1;
    } else {
      m, n := FirstTwo(front, e);
    }
  }

  // --------------------------------------------------------------- views

  /** The same cards with their authors rearranged. */
  ghost predicate Reassigned(a: seq<AnswerCard>, b: seq<AnswerCard>) {
    && Published(a) == Published(b)
    && multiset(Map(a, AuthorOf)) == multiset(Map(b, AuthorOf))
  }

  lemma WroteIsAuthors(cards: seq<AnswerCard>)
    ensures (set c | c in cards :: c.authorId) == set id | id in multiset(Map(cards, AuthorOf))
  {
    var authors := Map(cards, AuthorOf);
    forall id ensures id in (set c | c in cards :: c.authorId) <==> id in multiset(authors) {
      if id in multiset(authors) {
        var i :| 0 <= i < |authors| && authors[i] == id;
        assert cards[i] in cards;
      }
      if id in (set c | c in cards :: c.authorId) {
        var c :| c in cards && c.authorId == id;
        var i :| 0 <= i < |cards| && cards[i] == c;
        assert authors[i] == id;
      }
    }
  }

  /** In the guess phase the board looks the same under every rearrangement of the
      authors, and a phone under every one that leaves its own card alone. */
  lemma AuthorshipIsHidden(s: State, cards: seq<AnswerCard>, viewer: Viewer)
    requires s.phase == Guess && Reassigned(s.cards, cards)
    requires viewer.Seat? ==> OwnCard(s.cards, viewer.id) == OwnCard(cards, viewer.id)
    ensures ViewFor(s.(cards := cards), viewer) == ViewFor(s, viewer)
  {
    WroteIsAuthors(s.cards);
    WroteIsAuthors(cards);
    var wrote := set c | c in s.cards :: c.authorId;
    var wrote' := set c | c in cards :: c.authorId;
    assert wrote == wrote';
    KeepSame(s.roster, (id: PlayerId) => id !in s.left || id in wrote,
             (id: PlayerId) => id !in s.left || id in wrote');
    assert Authors(s) == Authors(s.(cards := cards));
  }

  lemma AuthorsAreWriters(drafts: Record<string>, salt: nat)
    ensures (set c | c in BuildCards(drafts, salt) :: c.authorId) == drafts.vals.Keys
  {
    CardsAreTheDrafts(drafts, salt);
  }

  /** From drafts to board: permuting who wrote which answer, before the cards are built,
      never shows on the shared screen. */
  lemma BoardNeverTellsWhoWrote(s: State, drafts: Record<string>, salt: nat)
    requires CompareIsTotalOrder()
    requires s.phase == Collect
    requires drafts.vals.Keys == s.drafts.vals.Keys && Texts(drafts) == Texts(s.drafts)
    ensures OnAdvance(s, Collect).Next? && OnAdvance(s.(drafts := drafts, salt := salt), Collect).Next?
    ensures ViewFor(OnAdvance(s, Collect).state, Host)
         == ViewFor(OnAdvance(s.(drafts := drafts, salt := salt), Collect).state, Host)
  {
    PublishedDependsOnTextsOnly(s.drafts, s.salt, drafts, salt);
    AuthorsAreWriters(s.drafts, s.salt);
    AuthorsAreWriters(drafts, salt);
    hide BuildCards, CompareIsTotalOrder, Texts, Entries;
    var a, b := BuildCards(s.drafts, s.salt), BuildCards(drafts, salt);
    var wrote := set c | c in a :: c.authorId;
    var wrote' := set c | c in b :: c.authorId;
    KeepSame(s.roster, (id: PlayerId) => id !in s.left || id in wrote,
             (id: PlayerId) => id !in s.left || id in wrote');
  }
}
