/**
 The canonical printing of JSON values: keys are sorted at every depth. Equal texts mean equal values up to the order
 of their keys; the converse holds for exactly those values in which no two keys of one object tie.
 */
module StableJson {
  import opened Wrappers

  /** Numbers carry the text the runtime prints for them; characters are Unicode scalar values. */
  datatype Json =
    | Null
    | Boolean(truth: bool)
    | Number(text: string)
    | String(s: string)
    | Array(items: seq<Json>)
    | Object(members: seq<Member>)

  datatype Member = Member(key: string, value: Json)

  predicate DistinctKeys(members: seq<Member>) {
    forall i, j :: 0 <= i < j < |members| ==> members[i].key != members[j].key
  }

  predicate NumberCharacter(c: char) {
    '0' <= c <= '9' || c == '-' || c == '+' || c == '.' || c == 'e' || c == 'E'
  }

  predicate NumberText(text: string) {
    && |text| > 0 && ('0' <= text[0] <= '9' || text[0] == '-')
    && forall i :: 0 <= i < |text| ==> NumberCharacter(text[i])
  }

  /** Number texts are number texts, and an object has every key once. */
  predicate WellFormed(value: Json) {
    match value
    case Number(text) => NumberText(text)
    case Array(items) => forall i :: 0 <= i < |items| ==> WellFormed(items[i])
    case Object(members) => DistinctKeys(members) && forall i :: 0 <= i < |members| ==> WellFormed(members[i].value)
    case _ => true
  }

  // ------------------------------------------------------------------ printing

  const HEX: string := "0123456789abcdef"

  function EscapedCharacter(c: char): (code: string)
    ensures |code| > 0
  {
    if c == '"' then ['\\', '"']
    else if c == '\\' then ['\\', '\\']
    else if c == '\n' then ['\\', 'n']
    else if c == '\r' then ['\\', 'r']
    else if c == '\t' then ['\\', 't']
    else if c as int == 8 then ['\\', 'b']
    else if c as int == 12 then ['\\', 'f']
    else if c as int < 32 then ['\\', 'u', '0', '0', HEX[c as int / 16], HEX[c as int % 16]]
    else [c]
  }

  function Escaped(s: string): string {
    if |s| == 0 then "" else EscapedCharacter(s[0]) + Escaped(s[1..])
  }

  function Quoted(s: string): string {
    "\"" + Escaped(s) + "\""
  }

  /** Prints a value as it stands. */
  function Written(value: Json): string {
    match value
    case Null => "null"
    case Boolean(truth) => if truth then "true" else "false"
    case Number(text) => text
    case String(s) => Quoted(s)
    case Array(items) => "[" + WrittenItems(items) + "]"
    case Object(members) => "{" + WrittenMembers(members) + "}"
  }

  function WrittenItems(items: seq<Json>): string {
    if |items| == 0 then ""
    else Written(items[0]) + if |items| == 1 then "" else "," + WrittenItems(items[1..])
  }

  function WrittenMembers(members: seq<Member>): string {
    if |members| == 0 then ""
    else
      Quoted(members[0].key) + ":" + Written(members[0].value)
      + if |members| == 1 then "" else "," + WrittenMembers(members[1..])
  }

  // ------------------------------------------------------------------ the same text, in front of what follows it

  function EscapedBefore(s: string, rest: string): string {
    if |s| == 0 then rest else EscapedCharacter(s[0]) + EscapedBefore(s[1..], rest)
  }

  function QuotedBefore(s: string, rest: string): string {
    ['"'] + EscapedBefore(s, ['"'] + rest)
  }

  function WrittenBefore(value: Json, rest: string): string {
    match value
    case Null => "null" + rest
    case Boolean(truth) => (if truth then "true" else "false") + rest
    case Number(text) => text + rest
    case String(s) => QuotedBefore(s, rest)
    case Array(items) => ['['] + ItemsBefore(items, [']'] + rest)
    case Object(members) => ['{'] + MembersBefore(members, ['}'] + rest)
  }

  function ItemsBefore(items: seq<Json>, rest: string): string {
    if |items| == 0 then rest
    else if |items| == 1 then WrittenBefore(items[0], rest)
    else WrittenBefore(items[0], [','] + ItemsBefore(items[1..], rest))
  }

  function MembersBefore(members: seq<Member>, rest: string): string {
    if |members| == 0 then rest
    else QuotedBefore(members[0].key, [':'] +
      if |members| == 1 then WrittenBefore(members[0].value, rest)
      else WrittenBefore(members[0].value, [','] + MembersBefore(members[1..], rest)))
  }

  lemma Associates(a: string, b: string, c: string)
    ensures a + (b + c) == a + b + c
  {
  }

  lemma {:induction false} EscapedJoins(s: string, rest: string)
    ensures EscapedBefore(s, rest) == Escaped(s) + rest
  {
    if |s| > 0 {
      EscapedJoins(s[1..], rest);
      Associates(EscapedCharacter(s[0]), Escaped(s[1..]), rest);
    } else {
      assert "" + rest == rest;
    }
  }

  lemma QuotedJoins(s: string, rest: string)
    ensures QuotedBefore(s, rest) == Quoted(s) + rest
  {
    EscapedJoins(s, ['"'] + rest);
    Associates(Escaped(s), ['"'], rest);
    Associates(['"'], Escaped(s) + ['"'], rest);
    Associates(['"'], Escaped(s), ['"']);
  }

  lemma {:induction false} WrittenJoins(value: Json, rest: string)
    ensures WrittenBefore(value, rest) == Written(value) + rest
  {
    match value
    case Null =>
    case Boolean(_) =>
    case Number(_) =>
    case String(s) => QuotedJoins(s, rest);
    case Array(items) =>
      ItemsJoin(items, [']'] + rest);
      Wrapped('[', WrittenItems(items), ']', rest);
    case Object(members) =>
      MembersJoin(members, ['}'] + rest);
      Wrapped('{', WrittenMembers(members), '}', rest);
  }

  lemma Wrapped(left: char, middle: string, right: char, rest: string)
    ensures [left] + (middle + ([right] + rest)) == [left] + middle + [right] + rest
  {
    Associates(middle, [right], rest);
    Associates([left], middle + [right], rest);
    Associates([left], middle, [right]);
  }

  lemma {:induction false} ItemsJoin(items: seq<Json>, rest: string)
    ensures ItemsBefore(items, rest) == WrittenItems(items) + rest
  {
    if |items| == 1 {
      WrittenJoins(items[0], rest);
    } else if |items| > 1 {
      ItemsJoin(items[1..], rest);
      WrittenJoins(items[0], [','] + ItemsBefore(items[1..], rest));
      Associates([','], WrittenItems(items[1..]), rest);
      Associates(Written(items[0]), [','] + WrittenItems(items[1..]), rest);
    }
  }

  lemma {:induction false} MembersJoin(members: seq<Member>, rest: string)
    ensures MembersBefore(members, rest) == WrittenMembers(members) + rest
  {
    if |members| > 0 {
      var key, value := Quoted(members[0].key), Written(members[0].value);
      if |members| == 1 {
        WrittenJoins(members[0].value, rest);
        QuotedJoins(members[0].key, [':'] + (value + rest));
        KeyedJoins(key, value, "", rest);
      } else {
        MembersJoin(members[1..], rest);
        var more := WrittenMembers(members[1..]);
        WrittenJoins(members[0].value, [','] + MembersBefore(members[1..], rest));
        QuotedJoins(members[0].key, [':'] + (value + ([','] + (more + rest))));
        Associates([','], more, rest);
        KeyedJoins(key, value, [','] + more, rest);
      }
    }
  }

  lemma KeyedJoins(key: string, value: string, more: string, rest: string)
    ensures key + ([':'] + (value + (more + rest))) == key + [':'] + value + more + rest
    ensures more == "" ==> value + (more + rest) == value + rest
  {
  }

  // ------------------------------------------------------------------ unique reading

  /** What may follow a value: the end, or a character no number contains. */
  predicate Ends(rest: string) {
    |rest| > 0 ==> rest[0] == ',' || rest[0] == ']' || rest[0] == '}'
  }

  lemma Cancel(front: string, x: string, y: string)
    requires front + x == front + y
    ensures x == y
  {
    assert x == (front + x)[|front|..];
    assert y == (front + y)[|front|..];
  }

  lemma {:induction false} EscapesAreUnique(c: char, d: char, x: string, y: string)
    requires EscapedCharacter(c) + x == EscapedCharacter(d) + y
    ensures c == d && x == y
  {
    var left, right := EscapedCharacter(c), EscapedCharacter(d);
    assert (left + x)[0] == left[0] && (right + y)[0] == right[0];
    if |left| > 1 && |right| > 1 {
      assert (left + x)[1] == left[1] && (right + y)[1] == right[1];
      if |left| > 5 && |right| > 5 {
        assert (left + x)[4] == left[4] && (right + y)[4] == right[4];
        assert (left + x)[5] == left[5] && (right + y)[5] == right[5];
        HexIsUnique(c as int / 16, d as int / 16);
        HexIsUnique(c as int % 16, d as int % 16);
      }
    }
    assert c == d;
    Cancel(left, x, y);
  }

  lemma HexIsUnique(i: nat, j: nat)
    requires i < 16 && j < 16
    ensures HEX[i] == HEX[j] ==> i == j
  {
    assert HEX == ['0', '1', '2', '3', '4', '5', '6', '7', '8', '9', 'a', 'b', 'c', 'd', 'e', 'f'];
  }

  /** An escaped character never looks like the closing quote. */
  lemma EscapeIsNoQuote(c: char)
    ensures EscapedCharacter(c)[0] != '"'
  {
  }

  lemma {:induction false} EscapedIsUnique(s: string, t: string, x: string, y: string)
    requires EscapedBefore(s, ['"'] + x) == EscapedBefore(t, ['"'] + y)
    ensures s == t && x == y
  {
    if |s| > 0 {
      EscapeIsNoQuote(s[0]);
      assert EscapedBefore(s, ['"'] + x)[0] == EscapedCharacter(s[0])[0];
    }
    if |t| > 0 {
      EscapeIsNoQuote(t[0]);
      assert EscapedBefore(t, ['"'] + y)[0] == EscapedCharacter(t[0])[0];
    }
    if |s| > 0 && |t| > 0 {
      EscapesAreUnique(s[0], t[0], EscapedBefore(s[1..], ['"'] + x), EscapedBefore(t[1..], ['"'] + y));
      EscapedIsUnique(s[1..], t[1..], x, y);
      assert s == [s[0]] + s[1..] && t == [t[0]] + t[1..];
    } else if |s| == 0 && |t| == 0 {
      Cancel(['"'], x, y);
    } else {
      assert false;
    }
  }

  lemma QuotedIsUnique(s: string, t: string, x: string, y: string)
    requires QuotedBefore(s, x) == QuotedBefore(t, y)
    ensures s == t && x == y
  {
    Cancel(['"'], EscapedBefore(s, ['"'] + x), EscapedBefore(t, ['"'] + y));
    EscapedIsUnique(s, t, x, y);
  }

  lemma NumberIsUnique(s: string, t: string, x: string, y: string)
    requires NumberText(s) && NumberText(t) && Ends(x) && Ends(y) && s + x == t + y
    ensures s == t && x == y
  {
    var text := s + x;
    assert forall i :: 0 <= i < |s| ==> NumberCharacter(text[i]);
    assert forall i :: 0 <= i < |t| ==> NumberCharacter((t + y)[i]);
    assert |x| > 0 ==> text[|s|] == x[0];
    assert |y| > 0 ==> (t + y)[|t|] == y[0];
    assert |s| == |t|;
    assert s == (s + x)[..|s|] && t == (t + y)[..|t|];
    Cancel(s, x, y);
  }

  /** The first character tells what kind of value begins. */
  predicate Begins(value: Json, c: char) {
    match value
    case Null => c == 'n'
    case Boolean(truth) => c == if truth then 't' else 'f'
    case Number(_) => '0' <= c <= '9' || c == '-'
    case String(_) => c == '"'
    case Array(_) => c == '['
    case Object(_) => c == '{'
  }

  lemma FirstCharacter(value: Json, rest: string)
    requires WellFormed(value)
    ensures |WrittenBefore(value, rest)| > 0 && Begins(value, WrittenBefore(value, rest)[0])
  {
    assert "null"[0] == 'n' && "true"[0] == 't' && "false"[0] == 'f';
  }

  lemma {:induction false} WrittenIsUnique(a: Json, b: Json, x: string, y: string)
    requires WellFormed(a) && WellFormed(b) && Ends(x) && Ends(y) && WrittenBefore(a, x) == WrittenBefore(b, y)
    ensures a == b && x == y
    decreases a
  {
    FirstCharacter(a, x);
    FirstCharacter(b, y);
    match a
    case Null => Cancel("null", x, y);
    case Boolean(truth) => Cancel(if truth then "true" else "false", x, y);
    case Number(text) => NumberIsUnique(text, b.text, x, y);
    case String(s) => QuotedIsUnique(s, b.s, x, y);
    case Array(items) =>
      Cancel(['['], ItemsBefore(items, [']'] + x), ItemsBefore(b.items, [']'] + y));
      ItemsAreUnique(items, b.items, x, y);
    case Object(members) =>
      Cancel(['{'], MembersBefore(members, ['}'] + x), MembersBefore(b.members, ['}'] + y));
      MembersAreUnique(members, b.members, x, y);
  }

  predicate AllWellFormed(items: seq<Json>) {
    forall i :: 0 <= i < |items| ==> WellFormed(items[i])
  }

  /** What follows the first item of a nonempty list. */
  function AfterItem(items: seq<Json>, end: string): string
    requires |items| > 0
  {
    if |items| == 1 then end else [','] + ItemsBefore(items[1..], end)
  }

  lemma {:induction false} ItemsAreUnique(a: seq<Json>, b: seq<Json>, x: string, y: string)
    requires AllWellFormed(a) && AllWellFormed(b)
    requires ItemsBefore(a, [']'] + x) == ItemsBefore(b, [']'] + y)
    ensures a == b && x == y
    decreases a
  {
    if |a| > 0 {
      FirstCharacter(a[0], AfterItem(a, [']'] + x));
    }
    if |b| > 0 {
      FirstCharacter(b[0], AfterItem(b, [']'] + y));
    }
    if |a| > 0 && |b| > 0 {
      var restA, restB := AfterItem(a, [']'] + x), AfterItem(b, [']'] + y);
      WrittenIsUnique(a[0], b[0], restA, restB);
      assert restA[0] == if |a| == 1 then ']' else ',';
      assert restB[0] == if |b| == 1 then ']' else ',';
      if |a| > 1 {
        Cancel([','], ItemsBefore(a[1..], [']'] + x), ItemsBefore(b[1..], [']'] + y));
        ItemsAreUnique(a[1..], b[1..], x, y);
        assert a == [a[0]] + a[1..] && b == [b[0]] + b[1..];
      } else {
        Cancel([']'], x, y);
        assert a == [a[0]] && b == [b[0]];
      }
    } else if |a| == 0 && |b| == 0 {
      Cancel([']'], x, y);
    } else {
      assert false;
    }
  }

  predicate AllValuesWellFormed(members: seq<Member>) {
    forall i :: 0 <= i < |members| ==> WellFormed(members[i].value)
  }

  function AfterMember(members: seq<Member>, end: string): string
    requires |members| > 0
  {
    if |members| == 1 then end else [','] + MembersBefore(members[1..], end)
  }

  lemma {:induction false} MembersAreUnique(a: seq<Member>, b: seq<Member>, x: string, y: string)
    requires AllValuesWellFormed(a) && AllValuesWellFormed(b)
    requires MembersBefore(a, ['}'] + x) == MembersBefore(b, ['}'] + y)
    ensures a == b && x == y
    decreases a
  {
    assert |a| > 0 ==> MembersBefore(a, ['}'] + x)[0] == '"';
    assert |b| > 0 ==> MembersBefore(b, ['}'] + y)[0] == '"';
    if |a| > 0 && |b| > 0 {
      var restA, restB := AfterMember(a, ['}'] + x), AfterMember(b, ['}'] + y);
      var valueA, valueB := WrittenBefore(a[0].value, restA), WrittenBefore(b[0].value, restB);
      QuotedIsUnique(a[0].key, b[0].key, [':'] + valueA, [':'] + valueB);
      Cancel([':'], valueA, valueB);
      WrittenIsUnique(a[0].value, b[0].value, restA, restB);
      assert restA[0] == if |a| == 1 then '}' else ',';
      assert restB[0] == if |b| == 1 then '}' else ',';
      if |a| > 1 {
        Cancel([','], MembersBefore(a[1..], ['}'] + x), MembersBefore(b[1..], ['}'] + y));
        MembersAreUnique(a[1..], b[1..], x, y);
        assert a == [a[0]] + a[1..] && b == [b[0]] + b[1..];
      } else {
        Cancel(['}'], x, y);
        assert a == [a[0]] && b == [b[0]];
      }
    } else if |a| == 0 && |b| == 0 {
      Cancel(['}'], x, y);
    } else {
      assert false;
    }
  }

  /** Printing without sorting loses nothing. */
  lemma WrittenDetermines(a: Json, b: Json)
    requires WellFormed(a) && WellFormed(b) && Written(a) == Written(b)
    ensures a == b
  {
    WrittenJoins(a, "");
    WrittenJoins(b, "");
    assert Written(a) + "" == Written(a) && Written(b) + "" == Written(b);
    WrittenIsUnique(a, b, "", "");
  }

  // ------------------------------------------------------------------ sorting keys

  type Order = (string, string) -> bool

  /** Inserts before the first member that comes after it: a stable sort, as the runtime's is. */
  function Inserted(sorted: seq<Member>, member: Member, less: Order): seq<Member> {
    if |sorted| == 0 then [member]
    else if less(member.key, sorted[0].key) then [member] + sorted
    else [sorted[0]] + Inserted(sorted[1..], member, less)
  }

  function Sorted(members: seq<Member>, less: Order): seq<Member> {
    if |members| == 0 then []
    else Inserted(Sorted(members[..|members| - 1], less), members[|members| - 1], less)
  }

  /** A value with the keys of every object sorted. */
  function Canonical(value: Json, less: Order): Json
    decreases value
  {
    match value
    case Array(items) => Array(seq(|items|, i requires 0 <= i < |items| => Canonical(items[i], less)))
    case Object(members) => Object(Sorted(CanonicalMembers(members, less), less))
    case _ => value
  }

  function CanonicalMembers(members: seq<Member>, less: Order): (result: seq<Member>)
    ensures |result| == |members|
    ensures forall i :: 0 <= i < |members| ==> result[i] == Member(members[i].key, Canonical(members[i].value, less))
    decreases members
  {
    if |members| == 0 then []
    else [Member(members[0].key, Canonical(members[0].value, less))] + CanonicalMembers(members[1..], less)
  }

  /** The printing used to compare contracts and commit vectors. */
  function StableJson(value: Json, less: Order): string {
    Written(Canonical(value, less))
  }

  predicate Tied(a: string, b: string, less: Order) {
    !less(a, b) && !less(b, a)
  }

  /** What a comparison gives: a strict order whose ties are an equivalence; different keys may tie. */
  ghost predicate WeakOrder(less: Order) {
    && (forall a :: !less(a, a))
    && (forall a, b, c :: less(a, b) && less(b, c) ==> less(a, c))
    && (forall a, b, c :: Tied(a, b, less) && Tied(b, c, less) ==> Tied(a, c, less))
  }

  /** No two members of one list have keys that tie. */
  predicate NoTiedKeys(members: seq<Member>, less: Order) {
    forall i, j :: 0 <= i < j < |members| ==> !Tied(members[i].key, members[j].key, less)
  }

  /** No two keys of one object tie, at any depth. */
  predicate NoTies(value: Json, less: Order) {
    match value
    case Array(items) => forall i :: 0 <= i < |items| ==> NoTies(items[i], less)
    case Object(members) =>
      NoTiedKeys(members, less) && forall i :: 0 <= i < |members| ==> NoTies(members[i].value, less)
    case _ => true
  }

  /** Equal up to the order of keys, at every depth. */
  predicate SameUpToKeyOrder(a: Json, b: Json)
    decreases a
  {
    match a
    case Array(items) =>
      && b.Array? && |items| == |b.items|
      && forall i :: 0 <= i < |items| ==> SameUpToKeyOrder(items[i], b.items[i])
    case Object(members) =>
      && b.Object? && |members| == |b.members|
      && forall i :: 0 <= i < |members| ==> HasCounterpart(members[i], b.members)
    case _ => a == b
  }

  predicate HasCounterpart(member: Member, others: seq<Member>)
    decreases member
  {
    exists j :: 0 <= j < |others| && others[j].key == member.key && SameUpToKeyOrder(member.value, others[j].value)
  }

  ghost predicate StrictlySorted(members: seq<Member>, less: Order) {
    forall i, j :: 0 <= i < j < |members| ==> less(members[i].key, members[j].key)
  }

  lemma {:induction false} InsertedHolds(sorted: seq<Member>, member: Member, less: Order)
    ensures multiset(Inserted(sorted, member, less)) == multiset(sorted) + multiset{member}
  {
    if |sorted| > 0 {
      assert sorted == [sorted[0]] + sorted[1..];
      if !less(member.key, sorted[0].key) {
        InsertedHolds(sorted[1..], member, less);
      }
    }
  }

  lemma SortedBehind(first: Member, rest: seq<Member>, less: Order)
    requires StrictlySorted(rest, less) && forall i :: 0 <= i < |rest| ==> less(first.key, rest[i].key)
    ensures StrictlySorted([first] + rest, less)
  {
  }

  lemma TailSorted(members: seq<Member>, less: Order)
    requires StrictlySorted(members, less) && |members| > 0
    ensures StrictlySorted(members[1..], less)
    ensures forall i :: 0 <= i < |members| - 1 ==> less(members[0].key, members[1..][i].key)
  {
  }

  /** A member that comes before the first of a sorted list comes before all of it. */
  lemma BeforeAll(member: Member, sorted: seq<Member>, less: Order)
    requires WeakOrder(less) && StrictlySorted(sorted, less) && |sorted| > 0 && less(member.key, sorted[0].key)
    ensures forall i :: 0 <= i < |sorted| ==> less(member.key, sorted[i].key)
  {
    forall i | 0 <= i < |sorted| ensures less(member.key, sorted[i].key) {
      assert i == 0 || less(sorted[0].key, sorted[i].key);
    }
  }

  lemma {:induction false} InsertedSorts(sorted: seq<Member>, member: Member, less: Order)
    requires WeakOrder(less) && StrictlySorted(sorted, less)
    requires forall i :: 0 <= i < |sorted| ==> !Tied(sorted[i].key, member.key, less)
    ensures StrictlySorted(Inserted(sorted, member, less), less)
  {
    if |sorted| > 0 {
      if less(member.key, sorted[0].key) {
        BeforeAll(member, sorted, less);
        SortedBehind(member, sorted, less);
      } else {
        TailSorted(sorted, less);
        InsertedSorts(sorted[1..], member, less);
        var rest := Inserted(sorted[1..], member, less);
        InsertedHolds(sorted[1..], member, less);
        forall i | 0 <= i < |rest| ensures less(sorted[0].key, rest[i].key) {
          assert rest[i] in multiset(rest);
          assert rest[i] in sorted[1..] || rest[i] == member;
        }
        SortedBehind(sorted[0], rest, less);
      }
    }
  }

  /** Sorting only changes the order, whatever the comparison says. */
  lemma {:induction false} SortedHolds(members: seq<Member>, less: Order)
    ensures multiset(Sorted(members, less)) == multiset(members)
  {
    if |members| > 0 {
      var shorter, last := members[..|members| - 1], members[|members| - 1];
      assert members == shorter + [last];
      SortedHolds(shorter, less);
      InsertedHolds(Sorted(shorter, less), last, less);
    }
  }

  lemma {:induction false} SortedKeeps(members: seq<Member>, less: Order)
    requires WeakOrder(less) && NoTiedKeys(members, less)
    ensures StrictlySorted(Sorted(members, less), less)
  {
    if |members| > 0 {
      var shorter, last := members[..|members| - 1], members[|members| - 1];
      SortedKeeps(shorter, less);
      SortedHolds(shorter, less);
      var sorted := Sorted(shorter, less);
      forall i | 0 <= i < |sorted| ensures !Tied(sorted[i].key, last.key, less) {
        assert sorted[i] in multiset(sorted);
        assert sorted[i] in shorter;
      }
      InsertedSorts(sorted, last, less);
    }
  }

  /** The first of a sorted list is the one that comes before every other. */
  lemma SameFirst(a: seq<Member>, b: seq<Member>, less: Order)
    requires WeakOrder(less) && StrictlySorted(a, less) && StrictlySorted(b, less)
    requires multiset(a) == multiset(b) && |a| > 0
    ensures |b| > 0 && a[0] == b[0]
  {
    assert a[0] in multiset(a);
    assert a[0] in multiset(b);
    var j :| 0 <= j < |b| && b[j] == a[0];
    assert b[0] in multiset(b);
    assert b[0] in multiset(a);
    var i :| 0 <= i < |a| && a[i] == b[0];
    assert i == 0 || less(a[0].key, a[i].key);
    assert j == 0 || less(b[0].key, b[j].key);
  }

  lemma Headed(members: seq<Member>)
    requires |members| > 0
    ensures members == [members[0]] + members[1..] && multiset(members[1..]) == multiset(members) - multiset{members[0]}
  {
    assert members == [members[0]] + members[1..];
  }

  /** A strictly sorted list is determined by its members. */
  lemma {:induction false} SortedIsUnique(a: seq<Member>, b: seq<Member>, less: Order)
    requires WeakOrder(less) && StrictlySorted(a, less) && StrictlySorted(b, less) && multiset(a) == multiset(b)
    ensures a == b
  {
    if |a| == 0 {
      assert |multiset(b)| == |b|;
    } else {
      SameFirst(a, b, less);
      Headed(a);
      Headed(b);
      TailSorted(a, less);
      TailSorted(b, less);
      SortedIsUnique(a[1..], b[1..], less);
    }
  }

  // ------------------------------------------------------------------ the canonical form

  lemma {:induction false} CanonicalIsWellFormed(value: Json, less: Order)
    requires WellFormed(value)
    ensures WellFormed(Canonical(value, less))
    decreases value
  {
    match value
    case Array(items) =>
      forall i | 0 <= i < |items| ensures WellFormed(Canonical(items[i], less)) {
        CanonicalIsWellFormed(items[i], less);
      }
    case Object(members) =>
      var canonical := CanonicalMembers(members, less);
      forall i | 0 <= i < |canonical| ensures WellFormed(canonical[i].value) {
        CanonicalIsWellFormed(members[i].value, less);
      }
      SortedHolds(canonical, less);
      ReorderedWellFormed(canonical, Sorted(canonical, less));
    case _ =>
  }

  /** Two places of a list hold the same key only if they are one place. */
  lemma {:induction false} ReorderedDistinct(members: seq<Member>, others: seq<Member>)
    requires DistinctKeys(members) && multiset(others) == multiset(members)
    ensures DistinctKeys(others)
  {
    forall i, j | 0 <= i < j < |others| ensures others[i].key != others[j].key {
      if others[i].key == others[j].key {
        assert others[i] in multiset(others) && others[j] in multiset(others);
        assert others[i] in members && others[j] in members;
        assert others[i] == others[j];
        OccursTwice(others, i, j);
        OccursOnce(members, others[i]);
      }
    }
  }

  lemma OccursTwice(members: seq<Member>, i: nat, j: nat)
    requires i < j < |members| && members[i] == members[j]
    ensures multiset(members)[members[i]] >= 2
  {
    assert members == members[..j] + [members[j]] + members[j + 1..];
    assert members[i] in members[..j];
  }

  lemma {:induction false} OccursOnce(members: seq<Member>, member: Member)
    requires DistinctKeys(members)
    ensures multiset(members)[member] <= 1
  {
    if |members| > 0 {
      var shorter, last := members[..|members| - 1], members[|members| - 1];
      assert members == shorter + [last];
      OccursOnce(shorter, member);
      if member == last {
        assert last !in shorter;
      }
    }
  }

  lemma ReorderedWellFormed(members: seq<Member>, others: seq<Member>)
    requires DistinctKeys(members) && AllValuesWellFormed(members) && multiset(others) == multiset(members)
    ensures DistinctKeys(others) && AllValuesWellFormed(others)
  {
    ReorderedDistinct(members, others);
    forall i | 0 <= i < |others| ensures WellFormed(others[i].value) {
      assert others[i] in multiset(others);
      assert others[i] in members;
    }
  }

  lemma ReorderedNoTies(members: seq<Member>, others: seq<Member>, less: Order)
    requires DistinctKeys(others) && NoTiedKeys(members, less) && multiset(others) == multiset(members)
    ensures NoTiedKeys(others, less)
  {
    forall i, j | 0 <= i < j < |others| ensures !Tied(others[i].key, others[j].key, less) {
      assert others[i] in multiset(others) && others[j] in multiset(others);
      assert others[i] in members && others[j] in members;
    }
  }

  lemma {:induction false} SameHasSameCanonical(a: Json, b: Json, less: Order)
    requires WeakOrder(less) && WellFormed(a) && WellFormed(b) && NoTies(a, less) && SameUpToKeyOrder(a, b)
    ensures Canonical(a, less) == Canonical(b, less)
    decreases a
  {
    match a
    case Array(items) =>
      forall i | 0 <= i < |items| ensures Canonical(items[i], less) == Canonical(b.items[i], less) {
        SameHasSameCanonical(items[i], b.items[i], less);
      }
    case Object(members) =>
      var left, right := CanonicalMembers(members, less), CanonicalMembers(b.members, less);
      forall i | 0 <= i < |members| ensures left[i] in right {
        assert HasCounterpart(members[i], b.members);
        var j :| 0 <= j < |b.members| && b.members[j].key == members[i].key
                 && SameUpToKeyOrder(members[i].value, b.members[j].value);
        SameHasSameCanonical(members[i].value, b.members[j].value, less);
        assert right[j] == left[i];
      }
      ContainedIsSame(left, right);
      ReorderedNoTies(left, right, less);
      SameSorted(left, right, less);
    case _ =>
  }

  lemma SameSorted(left: seq<Member>, right: seq<Member>, less: Order)
    requires WeakOrder(less) && NoTiedKeys(left, less) && NoTiedKeys(right, less) && multiset(left) == multiset(right)
    ensures Sorted(left, less) == Sorted(right, less)
  {
    SortedKeeps(left, less);
    SortedKeeps(right, less);
    SortedHolds(left, less);
    SortedHolds(right, less);
    SortedIsUnique(Sorted(left, less), Sorted(right, less), less);
  }

  predicate Contained(a: seq<Member>, b: seq<Member>) {
    forall i :: 0 <= i < |a| ==> a[i] in b
  }

  lemma WithoutOne(members: seq<Member>, j: nat)
    requires j < |members|
    ensures multiset(members) == multiset(members[..j] + members[j + 1..]) + multiset{members[j]}
  {
    assert members == members[..j] + [members[j]] + members[j + 1..];
  }

  lemma StillContained(a: seq<Member>, b: seq<Member>, j: nat)
    requires DistinctKeys(a) && |a| > 0 && j < |b| && b[j] == a[|a| - 1] && Contained(a, b)
    ensures Contained(a[..|a| - 1], b[..j] + b[j + 1..])
  {
    var rest := b[..j] + b[j + 1..];
    forall i | 0 <= i < |a| - 1 ensures a[i] in rest {
      var k :| 0 <= k < |b| && b[k] == a[i];
      assert k != j;
      assert k < j ==> rest[k] == a[i];
      assert k > j ==> rest[k - 1] == a[i];
    }
  }

  lemma StillDistinct(members: seq<Member>, j: nat)
    requires DistinctKeys(members) && j < |members|
    ensures DistinctKeys(members[..j] + members[j + 1..])
  {
  }

  /** Lists of one length with distinct keys, one contained in the other, have the same members. */
  lemma {:induction false} ContainedIsSame(a: seq<Member>, b: seq<Member>)
    requires DistinctKeys(a) && DistinctKeys(b) && |a| == |b| && Contained(a, b)
    ensures multiset(a) == multiset(b)
  {
    if |a| > 0 {
      var n := |a| - 1;
      assert a[n] in b;
      var j :| 0 <= j < |b| && b[j] == a[n];
      StillContained(a, b, j);
      StillDistinct(b, j);
      ContainedIsSame(a[..n], b[..j] + b[j + 1..]);
      WithoutOne(b, j);
      WithoutOne(a, n);
      assert a[..n] + a[n + 1..] == a[..n];
    }
  }

  lemma SamePlace(left: seq<Member>, right: seq<Member>, i: nat) returns (j: nat)
    requires multiset(left) == multiset(right) && i < |left|
    ensures j < |right| && right[j] == left[i]
  {
    assert left[i] in multiset(left);
    assert left[i] in multiset(right);
    j :| 0 <= j < |right| && right[j] == left[i];
  }

  lemma {:induction false} SameCanonicalIsSame(a: Json, b: Json, less: Order)
    requires WellFormed(a) && WellFormed(b) && Canonical(a, less) == Canonical(b, less)
    ensures SameUpToKeyOrder(a, b)
    decreases a
  {
    match a
    case Array(items) =>
      assert Canonical(b, less).Array? && |Canonical(b, less).items| == |items|;
      forall i | 0 <= i < |items| ensures SameUpToKeyOrder(items[i], b.items[i]) {
        assert Canonical(a, less).items[i] == Canonical(items[i], less);
        assert Canonical(b, less).items[i] == Canonical(b.items[i], less);
        SameCanonicalIsSame(items[i], b.items[i], less);
      }
    case Object(members) =>
      var left, right := CanonicalMembers(members, less), CanonicalMembers(b.members, less);
      SortedHolds(left, less);
      SortedHolds(right, less);
      assert multiset(left) == multiset(right);
      assert |multiset(left)| == |left| && |multiset(right)| == |right|;
      forall i | 0 <= i < |members|
        ensures HasCounterpart(members[i], b.members)
      {
        var j := SamePlace(left, right, i);
        SameCanonicalIsSame(members[i].value, b.members[j].value, less);
        assert b.members[j].key == members[i].key;
      }
    case _ =>
  }

  /** Equal texts mean equal values up to key order, whatever the comparison of keys says. */
  lemma EqualTextsAreSame(a: Json, b: Json, less: Order)
    requires WellFormed(a) && WellFormed(b) && StableJson(a, less) == StableJson(b, less)
    ensures Canonical(a, less) == Canonical(b, less) && SameUpToKeyOrder(a, b)
  {
    CanonicalIsWellFormed(a, less);
    CanonicalIsWellFormed(b, less);
    WrittenDetermines(Canonical(a, less), Canonical(b, less));
    SameCanonicalIsSame(a, b, less);
  }

  /** Where no two keys of one object tie, equal texts mean equal values up to key order, and conversely. */
  lemma PrintingIsCanonical(a: Json, b: Json, less: Order)
    requires WeakOrder(less) && WellFormed(a) && WellFormed(b) && NoTies(a, less)
    ensures StableJson(a, less) == StableJson(b, less) <==> SameUpToKeyOrder(a, b)
  {
    if StableJson(a, less) == StableJson(b, less) {
      EqualTextsAreSame(a, b, less);
    }
    if SameUpToKeyOrder(a, b) {
      SameHasSameCanonical(a, b, less);
    }
  }

  // ------------------------------------------------------------------ ties

  /** p stands before q. */
  predicate Before(members: seq<Member>, p: Member, q: Member) {
    exists i, j :: 0 <= i < j < |members| && members[i] == p && members[j] == q
  }

  ghost predicate WeaklySorted(members: seq<Member>, less: Order) {
    forall i, j :: 0 <= i < j < |members| ==> !less(members[j].key, members[i].key)
  }

  lemma {:induction false} InsertedKeepsWeakly(sorted: seq<Member>, member: Member, less: Order)
    requires WeakOrder(less) && WeaklySorted(sorted, less)
    ensures WeaklySorted(Inserted(sorted, member, less), less)
  {
    if |sorted| > 0 {
      var first := sorted[0];
      var rest := if less(member.key, first.key) then sorted else Inserted(sorted[1..], member, less);
      if less(member.key, first.key) {
        forall i | 0 <= i < |sorted| ensures !less(sorted[i].key, member.key) {
          assert i == 0 || !less(sorted[i].key, first.key);
        }
      } else {
        InsertedKeepsWeakly(sorted[1..], member, less);
        InsertedHolds(sorted[1..], member, less);
        forall i | 0 <= i < |rest| ensures !less(rest[i].key, first.key) {
          assert rest[i] in multiset(rest);
          assert rest[i] in sorted[1..] || rest[i] == member;
        }
      }
    }
  }

  lemma {:induction false} InsertedKeepsBefore(sorted: seq<Member>, member: Member, p: Member, q: Member, less: Order)
    requires Before(sorted, p, q)
    ensures Before(Inserted(sorted, member, less), p, q)
  {
    var i, j :| 0 <= i < j < |sorted| && sorted[i] == p && sorted[j] == q;
    var result := Inserted(sorted, member, less);
    if less(member.key, sorted[0].key) {
      assert result[i + 1] == p && result[j + 1] == q;
    } else if i > 0 {
      assert sorted[1..][i - 1] == p && sorted[1..][j - 1] == q;
      InsertedKeepsBefore(sorted[1..], member, p, q, less);
      var k, l :| 0 <= k < l < |Inserted(sorted[1..], member, less)|
        && Inserted(sorted[1..], member, less)[k] == p && Inserted(sorted[1..], member, less)[l] == q;
      assert result[k + 1] == p && result[l + 1] == q;
    } else {
      var rest := Inserted(sorted[1..], member, less);
      InsertedHolds(sorted[1..], member, less);
      assert sorted[1..][j - 1] == q;
      assert q in multiset(rest);
      var l :| 0 <= l < |rest| && rest[l] == q;
      assert result[0] == p && result[l + 1] == q;
    }
  }

  lemma TiedCompareAlike(a: string, b: string, c: string, less: Order)
    requires WeakOrder(less) && Tied(a, b, less)
    ensures less(a, c) <==> less(b, c)
  {
    assert less(b, c) && less(c, a) ==> less(b, a);
    assert less(a, c) && less(c, b) ==> less(a, b);
    assert Tied(a, c, less) ==> Tied(b, a, less) && Tied(b, c, less);
    assert Tied(b, c, less) ==> Tied(a, c, less);
  }

  /** A member is inserted behind the ones it ties with. */
  lemma {:induction false} InsertedBehindTied(sorted: seq<Member>, member: Member, p: Member, less: Order)
    requires WeakOrder(less) && WeaklySorted(sorted, less) && p in sorted && Tied(p.key, member.key, less)
    ensures Before(Inserted(sorted, member, less), p, member)
  {
    var i :| 0 <= i < |sorted| && sorted[i] == p;
    var result := Inserted(sorted, member, less);
    assert !less(p.key, sorted[0].key);
    TiedCompareAlike(p.key, member.key, sorted[0].key, less);
    if less(member.key, sorted[0].key) {
      assert false;
    } else {
      var rest := Inserted(sorted[1..], member, less);
      InsertedHolds(sorted[1..], member, less);
      if i == 0 {
        assert member in multiset(rest);
        var l :| 0 <= l < |rest| && rest[l] == member;
        assert result[0] == p && result[l + 1] == member;
      } else {
        assert sorted[1..][i - 1] == p;
        InsertedBehindTied(sorted[1..], member, p, less);
        var k, l :| 0 <= k < l < |rest| && rest[k] == p && rest[l] == member;
        assert result[k + 1] == p && result[l + 1] == member;
      }
    }
  }

  /** The sort is stable: of two members whose keys tie, the one listed first stays first. */
  lemma {:induction false} SortedIsStable(members: seq<Member>, i: nat, j: nat, less: Order)
    requires WeakOrder(less) && i < j < |members| && Tied(members[i].key, members[j].key, less)
    ensures Before(Sorted(members, less), members[i], members[j])
  {
    var shorter, last := members[..|members| - 1], members[|members| - 1];
    if j < |members| - 1 {
      SortedIsStable(shorter, i, j, less);
      InsertedKeepsBefore(Sorted(shorter, less), last, members[i], members[j], less);
    } else {
      SortedIsWeak(shorter, less);
      SortedHolds(shorter, less);
      assert shorter[i] in multiset(shorter);
      assert members[i] in multiset(Sorted(shorter, less));
      InsertedBehindTied(Sorted(shorter, less), last, members[i], less);
    }
  }

  lemma {:induction false} SortedIsWeak(members: seq<Member>, less: Order)
    requires WeakOrder(less)
    ensures WeaklySorted(Sorted(members, less), less)
  {
    if |members| > 0 {
      SortedIsWeak(members[..|members| - 1], less);
      InsertedKeepsWeakly(Sorted(members[..|members| - 1], less), members[|members| - 1], less);
    }
  }

  function Swapped(members: seq<Member>, i: nat, j: nat): (others: seq<Member>)
    requires i < j < |members|
    ensures |others| == |members| && others[i] == members[j] && others[j] == members[i]
    ensures forall k :: 0 <= k < |members| && k != i && k != j ==> others[k] == members[k]
  {
    members[i := members[j]][j := members[i]]
  }

  lemma OneOrder(members: seq<Member>, p: Member, q: Member)
    requires DistinctKeys(members) && Before(members, p, q)
    ensures !Before(members, q, p)
  {
    var i, j :| 0 <= i < j < |members| && members[i] == p && members[j] == q;
    forall k, l | 0 <= k < l < |members| ensures members[k] != q || members[l] != p {
      assert members[k].key == members[j].key ==> k == j;
      assert members[l].key == members[i].key ==> l == i;
    }
  }

  /** Listing two members with tied keys the other way round changes the sorted list. */
  lemma SwappedSortsApart(members: seq<Member>, i: nat, j: nat, less: Order)
    requires WeakOrder(less) && DistinctKeys(members) && i < j < |members|
    requires Tied(members[i].key, members[j].key, less)
    ensures Sorted(Swapped(members, i, j), less) != Sorted(members, less)
  {
    SortedIsStable(members, i, j, less);
    SortedIsStable(Swapped(members, i, j), i, j, less);
    SortedHolds(members, less);
    ReorderedDistinct(members, Sorted(members, less));
    OneOrder(Sorted(members, less), members[i], members[j]);
  }

  lemma {:induction false} SameAsItself(value: Json)
    ensures SameUpToKeyOrder(value, value)
    decreases value
  {
    match value
    case Array(items) =>
      forall i | 0 <= i < |items| ensures SameUpToKeyOrder(items[i], items[i]) {
        SameAsItself(items[i]);
      }
    case Object(members) =>
      forall i | 0 <= i < |members| ensures HasCounterpart(members[i], members) {
        SameAsItself(members[i].value);
      }
    case _ =>
  }

  lemma SwappedIsSame(members: seq<Member>, i: nat, j: nat)
    requires i < j < |members|
    ensures SameUpToKeyOrder(Object(members), Object(Swapped(members, i, j)))
  {
    var others := Swapped(members, i, j);
    forall k | 0 <= k < |members| ensures HasCounterpart(members[k], others) {
      SameAsItself(members[k].value);
      assert others[if k == i then j else if k == j then i else k] == members[k];
    }
  }

  lemma SwappedMembers(members: seq<Member>, i: nat, j: nat, less: Order)
    requires i < j < |members|
    ensures CanonicalMembers(Swapped(members, i, j), less) == Swapped(CanonicalMembers(members, less), i, j)
  {
  }

  /** Replacing one value by another with a different canonical form changes the sorted list. */
  lemma ReplacedSortsApart(members: seq<Member>, i: nat, other: Member, less: Order)
    requires DistinctKeys(members) && i < |members| && other.key == members[i].key && other != members[i]
    ensures Sorted(members[i := other], less) != Sorted(members, less)
  {
    SortedHolds(members, less);
    SortedHolds(members[i := other], less);
    assert other !in multiset(members) by {
      assert forall k :: 0 <= k < |members| ==> members[k].key == other.key ==> k == i;
      assert other !in members;
    }
    assert members[i := other][i] in multiset(members[i := other]);
  }

  lemma ReplacedItem(items: seq<Json>, i: nat, rival: Json, less: Order)
    requires i < |items| && AllWellFormed(items) && WellFormed(rival) && SameUpToKeyOrder(items[i], rival)
    requires Canonical(items[i], less) != Canonical(rival, less)
    ensures Rivals(Array(items), Array(items[i := rival]), less)
  {
    var a, b := Array(items), Array(items[i := rival]);
    forall k | 0 <= k < |items| ensures SameUpToKeyOrder(a.items[k], b.items[k]) {
      SameAsItself(items[k]);
    }
    assert Canonical(a, less).items[i] != Canonical(b, less).items[i];
  }

  lemma ReplacedMember(members: seq<Member>, i: nat, rival: Json, less: Order)
    requires i < |members| && WellFormed(Object(members)) && WellFormed(rival)
    requires SameUpToKeyOrder(members[i].value, rival) && Canonical(members[i].value, less) != Canonical(rival, less)
    ensures Rivals(Object(members), Object(members[i := Member(members[i].key, rival)]), less)
  {
    hide Sorted, Inserted, CanonicalMembers, SameUpToKeyOrder;
    var others := members[i := Member(members[i].key, rival)];
    assert SameUpToKeyOrder(Object(members), Object(others)) by {
      ReplacedIsSame(members, i, rival);
    }
    var canonical := CanonicalMembers(members, less);
    var changed := Member(members[i].key, Canonical(rival, less));
    assert CanonicalMembers(others, less) == canonical[i := changed];
    ReplacedSortsApart(canonical, i, changed, less);
    assert Canonical(Object(members), less) == Object(Sorted(canonical, less));
    assert Canonical(Object(others), less) == Object(Sorted(CanonicalMembers(others, less), less));
    assert WellFormed(Object(others));
  }

  lemma ReplacedIsSame(members: seq<Member>, i: nat, rival: Json)
    requires i < |members| && SameUpToKeyOrder(members[i].value, rival)
    ensures SameUpToKeyOrder(Object(members), Object(members[i := Member(members[i].key, rival)]))
  {
    var others := members[i := Member(members[i].key, rival)];
    forall k | 0 <= k < |members| ensures HasCounterpart(members[k], others) {
      SameAsItself(members[k].value);
      assert others[k].key == members[k].key;
    }
  }

  lemma SwappedRivals(members: seq<Member>, i: nat, j: nat, less: Order)
    requires WeakOrder(less) && WellFormed(Object(members)) && i < j < |members|
    requires Tied(members[i].key, members[j].key, less)
    ensures Rivals(Object(members), Object(Swapped(members, i, j)), less)
  {
    hide Sorted, Inserted, SameUpToKeyOrder, CanonicalMembers;
    SwappedIsSame(members, i, j);
    SwappedMembers(members, i, j, less);
    var others := Swapped(members, i, j);
    assert WellFormed(Object(others)) by {
      forall k | 0 <= k < |others| ensures WellFormed(others[k].value) {
        assert others[if k == i then j else if k == j then i else k] == members[k];
        assert others[k] == members[if k == i then j else if k == j then i else k];
      }
    }
    var canonical := CanonicalMembers(members, less);
    SwappedSortsApart(canonical, i, j, less);
    assert Canonical(Object(members), less) == Object(Sorted(canonical, less));
    assert Canonical(Object(others), less) == Object(Sorted(CanonicalMembers(others, less), less));
  }

  /** Equal up to key order, yet of different canonical form. */
  predicate Rivals(a: Json, b: Json, less: Order) {
    WellFormed(b) && SameUpToKeyOrder(a, b) && Canonical(a, less) != Canonical(b, less)
  }

  /** A value in which two keys of one object tie equals, up to key order, another one that prints otherwise. */
  lemma {:induction false} TiesHaveRivals(a: Json, less: Order) returns (b: Json)
    requires WeakOrder(less) && WellFormed(a) && !NoTies(a, less)
    ensures Rivals(a, b, less)
    decreases a
  {
    hide Canonical, CanonicalMembers, SameUpToKeyOrder;
    if a.Array? {
      var i :| 0 <= i < |a.items| && !NoTies(a.items[i], less);
      var rival := TiesHaveRivals(a.items[i], less);
      b := Array(a.items[i := rival]);
      ReplacedItem(a.items, i, rival, less);
    } else if !NoTiedKeys(a.members, less) {
      var i, j :| 0 <= i < j < |a.members| && Tied(a.members[i].key, a.members[j].key, less);
      b := Object(Swapped(a.members, i, j));
      SwappedRivals(a.members, i, j, less);
    } else {
      var i :| 0 <= i < |a.members| && !NoTies(a.members[i].value, less);
      var rival := TiesHaveRivals(a.members[i].value, less);
      b := Object(a.members[i := Member(a.members[i].key, rival)]);
      ReplacedMember(a.members, i, rival, less);
    }
  }

  lemma RivalsPrintApart(a: Json, b: Json, less: Order)
    requires WellFormed(a) && Rivals(a, b, less)
    ensures StableJson(a, less) != StableJson(b, less)
  {
    if StableJson(a, less) == StableJson(b, less) {
      CanonicalIsWellFormed(a, less);
      CanonicalIsWellFormed(b, less);
      WrittenDetermines(Canonical(a, less), Canonical(b, less));
    }
  }

  /** Everything equal to a value up to key order prints as it does. */
  ghost predicate PrintsOneWay(a: Json, less: Order) {
    forall b :: WellFormed(b) && SameUpToKeyOrder(a, b) ==> StableJson(b, less) == StableJson(a, less)
  }

  /** Key order never shows in the printing of a value if and only if no two keys of one object in it tie. */
  lemma PrintsOneWayExactlyWithoutTies(a: Json, less: Order)
    requires WeakOrder(less) && WellFormed(a)
    ensures PrintsOneWay(a, less) <==> NoTies(a, less)
  {
    if NoTies(a, less) {
      forall b | WellFormed(b) && SameUpToKeyOrder(a, b) ensures StableJson(b, less) == StableJson(a, less) {
        SameHasSameCanonical(a, b, less);
      }
    } else {
      var b := TiesHaveRivals(a, less);
      RivalsPrintApart(a, b, less);
    }
  }

  /** Two keys that tie are printed in the order in which they were added, so then the printing is not canonical. */
  lemma TiedKeysAreNotCanonical(first: string, second: string, less: Order)
    requires first != second && !less(first, second) && !less(second, first)
    ensures var a := Object([Member(first, Null), Member(second, Null)]);
      var b := Object([Member(second, Null), Member(first, Null)]);
      WellFormed(a) && WellFormed(b) && SameUpToKeyOrder(a, b) && StableJson(a, less) != StableJson(b, less)
  {
    var one, two := Member(first, Null), Member(second, Null);
    var a, b := Object([one, two]), Object([two, one]);
    TwoTied(one, two, less);
    TwoTied(two, one, less);
    assert a.members[0].key == b.members[1].key && a.members[1].key == b.members[0].key;
    assert SameUpToKeyOrder(Null, Null);
    assert a.members[0] != b.members[0];
    if StableJson(a, less) == StableJson(b, less) {
      WrittenDetermines(a, b);
    }
  }

  lemma TwoTied(one: Member, two: Member, less: Order)
    requires one.value == Null && two.value == Null && !less(two.key, one.key)
    ensures Canonical(Object([one, two]), less) == Object([one, two])
  {
    var members := [one, two];
    assert CanonicalMembers(members, less) == members;
    assert members[..1] == [one] && [one][..0] == [];
    assert Sorted([one], less) == [one];
    assert [one][1..] == [] && Inserted([], two, less) == [two];
    assert Inserted([one], two, less) == [one] + [two];
  }

  ghost predicate PrintsCanonically(less: Order) {
    forall a, b {:trigger StableJson(a, less), StableJson(b, less)} ::
      WellFormed(a) && WellFormed(b) ==> (StableJson(a, less) == StableJson(b, less) <==> SameUpToKeyOrder(a, b))
  }

  lemma {:induction false} TotalMeansNoTies(value: Json, less: Order)
    requires (forall a, b :: a == b || less(a, b) || less(b, a)) && WellFormed(value)
    ensures NoTies(value, less)
    decreases value
  {
    match value
    case Array(items) =>
      forall i | 0 <= i < |items| ensures NoTies(items[i], less) {
        TotalMeansNoTies(items[i], less);
      }
    case Object(members) =>
      forall i | 0 <= i < |members| ensures NoTies(members[i].value, less) {
        TotalMeansNoTies(members[i].value, less);
      }
    case _ =>
  }

  /** For a strict order of keys, the printing is canonical on all values exactly when no two different keys tie. */
  lemma CanonicalExactlyWhenKeysNeverTie(less: Order)
    requires forall a :: !less(a, a)
    requires forall a, b, c :: less(a, b) && less(b, c) ==> less(a, c)
    ensures PrintsCanonically(less) <==> forall a, b :: a == b || less(a, b) || less(b, a)
  {
    if forall a, b :: a == b || less(a, b) || less(b, a) {
      assert WeakOrder(less);
      forall a, b | WellFormed(a) && WellFormed(b)
        ensures StableJson(a, less) == StableJson(b, less) <==> SameUpToKeyOrder(a, b)
      {
        TotalMeansNoTies(a, less);
        PrintingIsCanonical(a, b, less);
      }
    } else {
      var first, second :| first != second && !less(first, second) && !less(second, first);
      TiedKeysAreNotCanonical(first, second, less);
    }
  }

  // ------------------------------------------------------------------ commit vectors

  /** Some listing of a commit vector as an object. */
  predicate Lists(members: seq<Member>, heads: map<string, string>) {
    && DistinctKeys(members)
    && (forall i :: 0 <= i < |members| ==> members[i].key in heads && members[i].value == String(heads[members[i].key]))
    && (forall repository :: repository in heads ==> exists i :: 0 <= i < |members| && members[i].key == repository)
  }

  /** Listings match when every member has a counterpart with the same key and value. */
  predicate Matched(a: seq<Member>, b: seq<Member>) {
    |a| == |b| && Contained(a, b)
  }

  lemma TextMembersMatch(heads: map<string, string>, others: map<string, string>, a: seq<Member>, b: seq<Member>)
    requires Lists(a, heads) && Lists(b, others)
    ensures SameUpToKeyOrder(Object(a), Object(b)) <==> Matched(a, b)
  {
    if Matched(a, b) {
      forall i | 0 <= i < |a| ensures HasCounterpart(a[i], b) {
        var j :| 0 <= j < |b| && b[j] == a[i];
        assert SameUpToKeyOrder(a[i].value, b[j].value);
      }
    }
    if SameUpToKeyOrder(Object(a), Object(b)) {
      forall i | 0 <= i < |a| ensures a[i] in b {
        assert HasCounterpart(a[i], b);
        var j :| 0 <= j < |b| && b[j].key == a[i].key && SameUpToKeyOrder(a[i].value, b[j].value);
        assert b[j] == a[i];
      }
    }
  }

  lemma MatchedMeansEqual(left: map<string, string>, right: map<string, string>, a: seq<Member>, b: seq<Member>)
    requires Lists(a, left) && Lists(b, right) && Matched(a, b)
    ensures left == right
  {
    forall repository | repository in left ensures repository in right && right[repository] == left[repository] {
      var i :| 0 <= i < |a| && a[i].key == repository;
      assert a[i] in b;
    }
    KeyCount(left, a);
    KeyCount(right, b);
    assert left.Keys <= right.Keys;
    SubsetOfSameSize(left.Keys, right.Keys);
  }

  lemma EqualMeansMatched(heads: map<string, string>, a: seq<Member>, b: seq<Member>)
    requires Lists(a, heads) && Lists(b, heads)
    ensures Matched(a, b)
  {
    KeyCount(heads, a);
    KeyCount(heads, b);
    forall i | 0 <= i < |a| ensures a[i] in b {
      var j :| 0 <= j < |b| && b[j].key == a[i].key;
      assert b[j] == a[i];
    }
  }

  /** No two repositories of a vector have names that tie. */
  ghost predicate NamesNeverTie(heads: map<string, string>, less: Order) {
    forall a, b :: a in heads && b in heads && a != b ==> !Tied(a, b, less)
  }

  lemma ListedNames(heads: map<string, string>, members: seq<Member>, less: Order)
    requires Lists(members, heads)
    ensures NoTies(Object(members), less) <==> NamesNeverTie(heads, less)
  {
    if NoTies(Object(members), less) {
      forall a, b | a in heads && b in heads && a != b ensures !Tied(a, b, less) {
        var i :| 0 <= i < |members| && members[i].key == a;
        var j :| 0 <= j < |members| && members[j].key == b;
        assert i < j || j < i;
      }
    }
  }

  /** Vectors with equal texts are equal; equal vectors have equal texts where no two names in them tie. */
  lemma SameHeadsDecidesEquality(left: map<string, string>, right: map<string, string>,
                                 a: seq<Member>, b: seq<Member>, less: Order)
    requires WeakOrder(less) && Lists(a, left) && Lists(b, right)
    ensures StableJson(Object(a), less) == StableJson(Object(b), less) ==> left == right
    ensures NamesNeverTie(left, less) && left == right ==> StableJson(Object(a), less) == StableJson(Object(b), less)
  {
    hide Canonical, StableJson, SameUpToKeyOrder, NoTies;
    TextMembersMatch(left, right, a, b);
    if StableJson(Object(a), less) == StableJson(Object(b), less) {
      EqualTextsAreSame(Object(a), Object(b), less);
      MatchedMeansEqual(left, right, a, b);
    }
    if NamesNeverTie(left, less) && left == right {
      EqualMeansMatched(left, a, b);
      ListedNames(left, a, less);
      PrintingIsCanonical(Object(a), Object(b), less);
    }
  }

  /** Every listing of a vector gives one text. */
  ghost predicate ListsOneWay(heads: map<string, string>, less: Order) {
    forall a, b {:trigger Lists(a, heads), Lists(b, heads)} ::
      Lists(a, heads) && Lists(b, heads) ==> StableJson(Object(a), less) == StableJson(Object(b), less)
  }

  lemma TiedNamesListApart(heads: map<string, string>, members: seq<Member>, less: Order) returns (others: seq<Member>)
    requires WeakOrder(less) && Lists(members, heads) && !NoTiedKeys(members, less)
    ensures Lists(others, heads) && StableJson(Object(members), less) != StableJson(Object(others), less)
  {
    hide StableJson, Canonical, SameUpToKeyOrder, Lists, Rivals, WellFormed, Swapped;
    ListedIsWellFormed(heads, members);
    var i, j :| 0 <= i < j < |members| && Tied(members[i].key, members[j].key, less);
    others := Swapped(members, i, j);
    SwappedLists(members, heads, i, j);
    SwappedRivals(members, i, j, less);
    RivalsPrintApart(Object(members), Object(others), less);
  }

  /** Two listings of one vector compare equal, whatever their order, if and only if no two names in it tie. */
  lemma VectorsCompareExactlyWithoutTies(heads: map<string, string>, members: seq<Member>, less: Order)
    requires WeakOrder(less) && Lists(members, heads)
    ensures ListsOneWay(heads, less) <==> NamesNeverTie(heads, less)
  {
    hide StableJson, Lists, NoTiedKeys;
    ListedNames(heads, members, less);
    if NamesNeverTie(heads, less) {
      forall a, b {:trigger Lists(a, heads), Lists(b, heads)} | Lists(a, heads) && Lists(b, heads)
        ensures StableJson(Object(a), less) == StableJson(Object(b), less)
      {
        SameHeadsDecidesEquality(heads, heads, a, b, less);
      }
    } else {
      assert forall i :: 0 <= i < |members| ==> NoTies(members[i].value, less) by {
        ListedTexts(heads, members, less);
      }
      var others := TiedNamesListApart(heads, members, less);
    }
  }

  lemma ListedIsWellFormed(heads: map<string, string>, members: seq<Member>)
    requires Lists(members, heads)
    ensures WellFormed(Object(members))
  {
  }

  lemma ListedTexts(heads: map<string, string>, members: seq<Member>, less: Order)
    requires Lists(members, heads)
    ensures forall i :: 0 <= i < |members| ==> NoTies(members[i].value, less)
  {
  }

  lemma SwappedLists(members: seq<Member>, heads: map<string, string>, i: nat, j: nat)
    requires Lists(members, heads) && i < j < |members|
    ensures Lists(Swapped(members, i, j), heads)
  {
    var others := Swapped(members, i, j);
    forall repository | repository in heads ensures exists k :: 0 <= k < |others| && others[k].key == repository {
      var k :| 0 <= k < |members| && members[k].key == repository;
      assert others[if k == i then j else if k == j then i else k] == members[k];
    }
  }

  lemma SubsetOfSameSize(a: set<string>, b: set<string>)
    requires a <= b && |a| == |b|
    ensures a == b
  {
    SubsetSize(b - a, b);
    assert |b| == |a| + |b - a|;
  }

  lemma {:induction false} KeyCount(heads: map<string, string>, members: seq<Member>)
    requires Lists(members, heads)
    ensures |heads.Keys| == |members|
  {
    DistinctCount(members);
    assert heads.Keys == set i | 0 <= i < |members| :: members[i].key;
  }

  lemma {:induction false} DistinctCount(members: seq<Member>)
    requires DistinctKeys(members)
    ensures |set i | 0 <= i < |members| :: members[i].key| == |members|
  {
    if |members| > 0 {
      var shorter, last := members[..|members| - 1], members[|members| - 1];
      DistinctCount(shorter);
      assert (set i | 0 <= i < |members| :: members[i].key)
          == (set i | 0 <= i < |shorter| :: shorter[i].key) + {last.key};
      assert last.key !in set i | 0 <= i < |shorter| :: shorter[i].key;
    }
  }
}
