/**
  When the script printer's text is Python's: exactly when no object, at any depth, has two keys that the two orders
  set the other way round.
 */
module KeyOrders {
  import opened Common
  import opened JsonText
  import opened CanonicalJson

  predicate Astral(c: char) {
    c as int >= 0x10000
  }

  predicate AboveSurrogates(c: char) {
    0xE000 <= c as int < 0x10000
  }

  /** The first difference sets a character from U+10000 up against one from U+E000 to U+FFFF. */
  predicate Crossed(a: string, b: string) {
    a != "" && b != "" &&
    if a[0] == b[0] then Crossed(a[1..], b[1..])
    else (Astral(a[0]) && AboveSurrogates(b[0])) || (AboveSurrogates(a[0]) && Astral(b[0]))
  }

  /** Code units and code points order two strings the same way exactly when they are not crossed. */
  lemma {:induction false} OrdersAgree(a: string, b: string)
    ensures (Before(Units, a, b) <==> Before(Points, a, b)) <==> !Crossed(a, b)
  {
    if a != "" && b != "" && a[0] == b[0] { OrdersAgree(a[1..], b[1..]); }
  }

  lemma {:induction false} CrossedBothWays(a: string, b: string)
    ensures Crossed(a, b) == Crossed(b, a)
  {
    if a != "" && b != "" && a[0] == b[0] { CrossedBothWays(a[1..], b[1..]); }
  }

  predicate CrossedKeys<T>(ms: seq<Keyed<T>>) {
    exists i, j :: 0 <= i < j < |ms| && Crossed(ms[i].key, ms[j].key)
  }

  /** Some object in the value has crossed keys. */
  predicate HasCrossed(v: Json)
    decreases v
  {
    match v
    case Arr(items) => exists i :: 0 <= i < |items| && HasCrossed(items[i])
    case Obj(members) => CrossedKeys(members) || exists i :: 0 <= i < |members| && HasCrossed(members[i].value)
    case Null => false
    case Bool(_) => false
    case Num(_) => false
    case Str(_) => false
  }

  // ---- printing is injective ----

  lemma {:induction false} PrintReads(v: Json)
    ensures Reads(Print(v), v)
    decreases v
  {
    match v {
      case Null => WordReads(Units, v);
      case Bool(_) => WordReads(Units, v);
      case Num(n) => NumberReads(n);
      case Str(s) => StringReads(s);
      case Arr(items) =>
        PrintItemsRead(items);
        ItemsRead(PrintItems(items), items);
      case Obj(members) =>
        PrintMembersRead(members);
        MembersRead(PrintMembers(members), members);
    }
  }

  lemma {:induction false} PrintItemsRead(items: seq<Json>)
    ensures ReadsAll(PrintItems(items), items)
    decreases items
  {
    hide Reads, Print;
    if items != [] {
      PrintReads(items[0]);
      PrintItemsRead(items[1..]);
    }
  }

  lemma {:induction false} PrintMembersRead(ms: seq<Keyed<Json>>)
    ensures ReadsMembers(PrintMembers(ms), ms)
    decreases ms
  {
    hide Reads, Print;
    if ms != [] {
      PrintReads(ms[0].value);
      PrintMembersRead(ms[1..]);
    }
  }

  lemma PrintInjective(v: Json, w: Json)
    ensures Print(v) == Print(w) <==> v == w
  {
    hide *;
    PrintReads(v);
    PrintReads(w);
    assert Stops("") by { StopsAtEnd(); }
    ReadsAt(Print(v), v, "");
    ReadsAt(Print(w), w, "");
  }

  // ---- sorting in the two orders ----

  /** A list that ascends in both orders has no crossed keys; a list in one order without any ascends in the other. */
  lemma AscendsInBoth<T>(ms: seq<Keyed<T>>)
    requires Ascending(Units, ms)
    ensures Ascending(Points, ms) <==> !CrossedKeys(ms)
  {
    hide Before, Crossed;
    if CrossedKeys(ms) {
      var i, j :| 0 <= i < j < |ms| && Crossed(ms[i].key, ms[j].key);
      OrdersAgree(ms[i].key, ms[j].key);
    } else {
      forall i, j | 0 <= i < j < |ms| ensures Before(Points, ms[i].key, ms[j].key) {
        OrdersAgree(ms[i].key, ms[j].key);
      }
    }
  }

  /** Crossed keys are a matter of which members there are, not of their order. */
  lemma CrossedMoves<T>(a: seq<Keyed<T>>, b: seq<Keyed<T>>)
    requires CrossedKeys(a) && forall x :: x in a ==> x in b
    ensures CrossedKeys(b)
  {
    hide Crossed;
    var i, j :| 0 <= i < j < |a| && Crossed(a[i].key, a[j].key);
    assert a[i] in b && a[j] in b;
    var p: nat :| p < |b| && b[p] == a[i];
    var q: nat :| q < |b| && b[q] == a[j];
    NotCrossedSelf(a[i].key);
    CrossedBothWays(a[i].key, a[j].key);
    assert p < q ==> Crossed(b[p].key, b[q].key);
    assert q < p ==> Crossed(b[q].key, b[p].key);
  }

  lemma {:induction false} NotCrossedSelf(a: string)
    ensures !Crossed(a, a)
  {
    if a != "" { NotCrossedSelf(a[1..]); }
  }

  /** The two sorts give one list exactly when no two keys are crossed. */
  lemma SortsAgree<T(!new)>(ms: seq<Keyed<T>>)
    requires Distinct(ms)
    ensures SortByKey(Units, ms) == SortByKey(Points, ms) <==> !CrossedKeys(ms)
  {
    hide Before, Crossed, SortByKey, Ascending, CrossedKeys;
    SortAscending(Units, ms);
    SortAscending(Points, ms);
    var u, p := SortByKey(Units, ms), SortByKey(Points, ms);
    AscendsInBoth(u);
    if CrossedKeys(ms) { CrossedMoves(ms, u); }
    if CrossedKeys(u) { CrossedMoves(u, ms); }
    if Ascending(Points, u) { AscendingUnique(Points, u, p); }
  }

  lemma SameKeysSameList<T>(a: seq<Keyed<T>>, b: seq<Keyed<T>>)
    requires |a| == |b| && (forall i :: 0 <= i < |a| ==> a[i].key == b[i].key) && Distinct(a) && forall x :: x in a ==> x in b
    ensures a == b
  {
    forall i | 0 <= i < |a| ensures a[i] == b[i] {
      assert a[i] in b;
      var j :| 0 <= j < |b| && b[j] == a[i];
    }
  }

  // ---- whole values ----

  lemma ConsSame<T>(x: T, xs: seq<T>, y: T, ys: seq<T>)
    ensures [x] + xs == [y] + ys <==> x == y && xs == ys
  {
    assert ([x] + xs)[0] == x && ([x] + xs)[1..] == xs && ([y] + ys)[0] == y && ([y] + ys)[1..] == ys;
  }

  lemma {:induction false} ItemsAgree(items: seq<Json>)
    requires forall i :: 0 <= i < |items| ==> Unique(items[i])
    ensures SortedItems(Units, items) == SortedItems(Points, items) <==> forall i :: 0 <= i < |items| ==> !HasCrossed(items[i])
    decreases items
  {
    hide HasCrossed, Unique, Sorted;
    if items != [] {
      SortedAgree(items[0]);
      ItemsAgree(items[1..]);
      ConsSame(Sorted(Units, items[0]), SortedItems(Units, items[1..]), Sorted(Points, items[0]), SortedItems(Points, items[1..]));
      assert forall i :: 0 < i < |items| ==> items[i] == items[1..][i - 1];
    }
  }

  lemma {:induction false} ValuesAgree(ms: seq<Keyed<Json>>)
    requires forall i :: 0 <= i < |ms| ==> Unique(ms[i].value)
    ensures SortedMembers(Units, ms) == SortedMembers(Points, ms) <==> forall i :: 0 <= i < |ms| ==> !HasCrossed(ms[i].value)
    decreases ms
  {
    hide HasCrossed, Unique, Sorted;
    if ms != [] {
      SortedAgree(ms[0].value);
      ValuesAgree(ms[1..]);
      ConsSame(Keyed(ms[0].key, Sorted(Units, ms[0].value)), SortedMembers(Units, ms[1..]),
               Keyed(ms[0].key, Sorted(Points, ms[0].value)), SortedMembers(Points, ms[1..]));
      assert forall i :: 0 < i < |ms| ==> ms[i] == ms[1..][i - 1];
    }
  }

  lemma KeysStay(o: Order, ms: seq<Keyed<Json>>)
    ensures forall i :: 0 <= i < |ms| ==> SortedMembers(o, ms)[i].key == ms[i].key
    ensures CrossedKeys(SortedMembers(o, ms)) <==> CrossedKeys(ms)
  {
    hide SortedMembers, Crossed, Sorted;
    forall i | 0 <= i < |ms| ensures SortedMembers(o, ms)[i].key == ms[i].key {
      SortedAt(o, ms, i);
    }
    var s := SortedMembers(o, ms);
    assert forall i, j :: 0 <= i < j < |ms| ==> Crossed(s[i].key, s[j].key) == Crossed(ms[i].key, ms[j].key);
  }

  /** One object: the members' values agree in the two orders and so do their keys. */
  lemma ObjectsAgree(ms: seq<Keyed<Json>>)
    requires Distinct(ms)
    ensures var a, b := SortedMembers(Units, ms), SortedMembers(Points, ms);
      SortByKey(Units, a) == SortByKey(Points, b) <==> a == b && !CrossedKeys(ms)
  {
    hide SortedMembers, SortByKey, Crossed, CrossedKeys, Sorted, Ascending;
    var a, b := SortedMembers(Units, ms), SortedMembers(Points, ms);
    KeysStay(Units, ms);
    KeysStay(Points, ms);
    SortedDistinct(Units, ms);
    SortedDistinct(Points, ms);
    SortAscending(Units, a);
    SortAscending(Points, b);
    if SortByKey(Units, a) == SortByKey(Points, b) {
      assert forall x :: x in a ==> x in SortByKey(Units, a);
      SameKeysSameList(a, b);
    }
    SortsAgree(a);
  }

  lemma {:induction false} SortedAgree(v: Json)
    requires Unique(v)
    ensures Sorted(Units, v) == Sorted(Points, v) <==> !HasCrossed(v)
    decreases v
  {
    hide CrossedKeys;
    match v {
      case Arr(items) => ItemsAgree(items);
      case Obj(members) =>
        ValuesAgree(members);
        ObjectsAgree(members);
      case Null =>
      case Bool(_) =>
      case Num(_) =>
      case Str(_) =>
    }
  }

  /** The script's text of a value is Python's exactly when no object in it has crossed keys. */
  lemma ScriptTextIsPythons(v: Json)
    requires Unique(v)
    ensures Canonical(Units, v) == Canonical(Points, v) <==> !HasCrossed(v)
  {
    hide *;
    CanonicalIsSortedPrint(Units, v);
    CanonicalIsSortedPrint(Points, v);
    PrintInjective(Sorted(Units, v), Sorted(Points, v));
    SortedAgree(v);
  }

  /** Two such keys: an object with them hashes differently on the two sides. */
  lemma OrdersDiffer() returns (v: Json)
    ensures Unique(v) && v.Obj? && |v.members| == 2 && Canonical(Units, v) != Canonical(Points, v)
  {
    var a, b := "\U{1F600}", "\U{FF5E}";
    assert a[0] == '\U{1F600}' && b[0] == '\U{FF5E}';
    v := Obj([Keyed(a, Null), Keyed(b, Null)]);
    assert Crossed(v.members[0].key, v.members[1].key);
    ScriptTextIsPythons(v);
  }
}
