/** The canonical form of JSON values (`canonicalJson`, packages/protocol/src/validation.ts). */
module CanonicalJson {

  /** Strings are sequences of UTF-16 code units, which JavaScript's `sort` compares. */
  type Text = seq<int>

  datatype Member = Member(key: Text, value: Json)

  /** A JSON value.  `Leaf` is a null, a boolean, a number or a string. */
  datatype Json = Leaf(text: Text) | Array(items: seq<Json>) | Object(members: seq<Member>)

  /** Keys are unique at every depth, as in every JavaScript object. */
  predicate UniqueKeys(json: Json) {
    match json
    case Leaf(_) => true
    case Array(items) => forall k :: 0 <= k < |items| ==> UniqueKeys(items[k])
    case Object(members) => Distinct(KeysOf(members)) && forall k :: 0 <= k < |members| ==> UniqueKeys(members[k].value)
  }

  function KeysOf(members: seq<Member>): (keys: seq<Text>)
    ensures |keys| == |members| && forall k :: 0 <= k < |keys| ==> keys[k] == members[k].key
  {
    seq(|members|, k requires 0 <= k < |members| => members[k].key)
  }

  predicate Distinct(keys: seq<Text>) {
    forall j, k :: 0 <= j < k < |keys| ==> keys[j] != keys[k]
  }

  // ---------------------------------------------------------------- sorting

  predicate Less(a: Text, b: Text) {
    if b == [] then false
    else if a == [] then true
    else a[0] < b[0] || (a[0] == b[0] && Less(a[1..], b[1..]))
  }

  function Insert(keys: seq<Text>, key: Text, less: (Text, Text) -> bool): seq<Text> {
    if keys == [] || less(key, keys[0]) then [key] + keys else [keys[0]] + Insert(keys[1..], key, less)
  }

  function Sort(keys: seq<Text>, less: (Text, Text) -> bool): seq<Text> {
    if keys == [] then [] else Insert(Sort(keys[1..], less), keys[0], less)
  }

  // ---------------------------------------------------------------- own-key order

  predicate IsDigit(c: int) {
    48 <= c <= 57
  }

  function NumberOf(digits: Text): int {
    if digits == [] then 0 else NumberOf(digits[..|digits| - 1]) * 10 + digits[|digits| - 1] - 48
  }

  /** An array index: the decimal form of an integer below 2^32 - 1. */
  predicate IsIndex(key: Text) {
    && key != [] && (forall k :: 0 <= k < |key| ==> IsDigit(key[k]))
    && (key[0] != 48 || |key| == 1)
    && NumberOf(key) < 0xFFFF_FFFF
  }

  function Filter(keys: seq<Text>, keep: Text -> bool): seq<Text> {
    if keys == [] then [] else if keep(keys[0]) then [keys[0]] + Filter(keys[1..], keep) else Filter(keys[1..], keep)
  }

  /** The order in which a JavaScript object made with these keys lists them: array indices
      first, in numeric order, then the others as they came. */
  function OwnOrder(keys: seq<Text>): seq<Text> {
    Sort(Filter(keys, key => IsIndex(key)), (a: Text, b: Text) => NumberOf(a) < NumberOf(b))
    + Filter(keys, key => !IsIndex(key))
  }

  function CanonicalKeys(members: seq<Member>): seq<Text> {
    OwnOrder(Sort(KeysOf(members), (a, b) => Less(a, b)))
  }

  // ---------------------------------------------------------------- visit

  lemma KeysOfRest(members: seq<Member>)
    requires members != []
    ensures forall key :: key in KeysOf(members) <==> key == members[0].key || key in KeysOf(members[1..])
  {
    var keys, rest := KeysOf(members), KeysOf(members[1..]);
    assert forall k :: 0 <= k < |rest| ==> rest[k] == keys[k + 1];
    forall key | key in keys && key != members[0].key ensures key in rest {
      var k :| 0 <= k < |keys| && keys[k] == key;
      assert rest[k - 1] == key;
    }
  }

  /** The position of a key; |members| when there is none. */
  function IndexOf(members: seq<Member>, key: Text): (k: nat)
    ensures k <= |members|
    ensures k < |members| <==> key in KeysOf(members)
    ensures k < |members| ==> members[k].key == key
  {
    if members == [] then 0
    else if members[0].key == key then assert KeysOf(members)[0] == key; 0
    else
      KeysOfRest(members);
      1 + IndexOf(members[1..], key)
  }

  function Visit(json: Json): Json {
    match json
    case Leaf(_) => json
    case Array(items) => Array(seq(|items|, k requires 0 <= k < |items| => Visit(items[k])))
    case Object(members) =>
      var keys := CanonicalKeys(members);
      CanonicalKeysPermute(members);
      assert forall k :: 0 <= k < |keys| ==> keys[k] in keys;
      Object(seq(|keys|, k requires 0 <= k < |keys| =>
        Member(keys[k], Visit(members[IndexOf(members, keys[k])].value))))
  }

  /** Equality up to the order of object members, at every depth. */
  ghost predicate SameValue(a: Json, b: Json) {
    match a
    case Leaf(_) => a == b
    case Array(items) => b.Array? && |items| == |b.items| && forall k :: 0 <= k < |items| ==>
      SameValue(items[k], b.items[k])
    case Object(members) =>
      && b.Object?
      && (forall key :: key in KeysOf(members) <==> key in KeysOf(b.members))
      && forall k :: 0 <= k < |members| && members[k].key in KeysOf(b.members) ==>
           SameValue(members[k].value, b.members[IndexOf(b.members, members[k].key)].value)
  }

  // ---------------------------------------------------------------- sorting is canonical

  lemma {:induction false} InsertPermutes(keys: seq<Text>, key: Text, less: (Text, Text) -> bool)
    ensures forall x :: x in Insert(keys, key, less) <==> x in keys || x == key
    ensures Distinct(keys) && key !in keys ==> Distinct(Insert(keys, key, less))
  {
    if keys == [] || less(key, keys[0]) {
      assert key !in keys ==> forall k :: 0 <= k < |keys| ==> keys[k] != key;
    } else {
      InsertPermutes(keys[1..], key, less);
      var rest := Insert(keys[1..], key, less);
      assert forall x :: x in keys <==> x == keys[0] || x in keys[1..];
      assert forall k :: 0 <= k < |rest| ==> rest[k] in rest;
    }
  }

  lemma {:induction false} SortPermutes(keys: seq<Text>, less: (Text, Text) -> bool)
    ensures forall x :: x in Sort(keys, less) <==> x in keys
    ensures Distinct(keys) ==> Distinct(Sort(keys, less))
  {
    if keys != [] {
      SortPermutes(keys[1..], less);
      InsertPermutes(Sort(keys[1..], less), keys[0], less);
    }
  }

  lemma {:induction false} FilterKeeps(keys: seq<Text>, keep: Text -> bool)
    ensures forall x :: x in Filter(keys, keep) <==> x in keys && keep(x)
    ensures Distinct(keys) ==> Distinct(Filter(keys, keep))
  {
    if keys != [] { FilterKeeps(keys[1..], keep); }
  }

  lemma OwnOrderPermutes(keys: seq<Text>)
    ensures forall x :: x in OwnOrder(keys) <==> x in keys
    ensures Distinct(keys) ==> Distinct(OwnOrder(keys))
  {
    FilterKeeps(keys, key => IsIndex(key));
    FilterKeeps(keys, key => !IsIndex(key));
    SortPermutes(Filter(keys, key => IsIndex(key)), (a: Text, b: Text) => NumberOf(a) < NumberOf(b));
    var indices, others := Sort(Filter(keys, key => IsIndex(key)), (a: Text, b: Text) => NumberOf(a) < NumberOf(b)),
      Filter(keys, key => !IsIndex(key));
    assert (forall k :: 0 <= k < |indices| ==> indices[k] in indices)
      && (forall k :: 0 <= k < |others| ==> others[k] in others);
  }

  lemma CanonicalKeysPermute(members: seq<Member>)
    ensures forall x :: x in CanonicalKeys(members) <==> x in KeysOf(members)
    ensures Distinct(KeysOf(members)) ==> Distinct(CanonicalKeys(members))
  {
    SortPermutes(KeysOf(members), (a, b) => Less(a, b));
    OwnOrderPermutes(Sort(KeysOf(members), (a, b) => Less(a, b)));
  }

  lemma {:induction false} LessIsStrict(a: Text, b: Text, c: Text)
    ensures !Less(a, a)
    ensures Less(a, b) || a == b || Less(b, a)
    ensures Less(a, b) && Less(b, c) ==> Less(a, c)
  {
    if a != [] && b != [] && c != [] {
      LessIsStrict(a[1..], b[1..], c[1..]);
      assert a == [a[0]] + a[1..] && b == [b[0]] + b[1..];
    } else if a != [] && b != [] {
      LessIsStrict(a[1..], b[1..], []);
      assert a == [a[0]] + a[1..] && b == [b[0]] + b[1..];
    } else if a != [] {
      LessIsStrict(a[1..], [], []);
    }
  }

  predicate Ascending(keys: seq<Text>) {
    forall j, k :: 0 <= j < k < |keys| ==> Less(keys[j], keys[k])
  }

  lemma {:induction false} InsertAscends(keys: seq<Text>, key: Text)
    requires Ascending(keys) && key !in keys
    ensures Ascending(Insert(keys, key, (a, b) => Less(a, b)))
  {
    var less := (a: Text, b: Text) => Less(a, b);
    if keys != [] {
      LessIsStrict(key, keys[0], key);
      if less(key, keys[0]) {
        forall k | 0 < k < |keys| ensures Less(key, keys[k]) { LessIsStrict(key, keys[0], keys[k]); }
      } else {
        InsertAscends(keys[1..], key);
        InsertPermutes(keys[1..], key, less);
        var rest := Insert(keys[1..], key, less);
        forall k | 0 <= k < |rest| ensures Less(keys[0], rest[k]) {
          assert rest[k] in rest;
        }
      }
    }
  }

  lemma {:induction false} SortAscends(keys: seq<Text>)
    requires Distinct(keys)
    ensures Ascending(Sort(keys, (a, b) => Less(a, b)))
  {
    if keys != [] {
      SortAscends(keys[1..]);
      SortPermutes(keys[1..], (a, b) => Less(a, b));
      InsertAscends(Sort(keys[1..], (a, b) => Less(a, b)), keys[0]);
    }
  }

  /** A set of keys has one ascending list. */
  lemma {:induction false} AscendingIsUnique(a: seq<Text>, b: seq<Text>)
    requires Ascending(a) && Ascending(b) && forall x :: x in a <==> x in b
    ensures a == b
  {
    assert (a != [] ==> a[0] in a) && (b != [] ==> b[0] in b);
    if a != [] {
      FirstIsLeast(a, b);
      FirstIsLeast(b, a);
      LessIsStrict(a[0], b[0], a[0]);
      forall x ensures x in a[1..] <==> x in b[1..] {
        LessIsStrict(a[0], a[0], a[0]);
        assert x in a <==> x == a[0] || x in a[1..];
        assert x in b <==> x == b[0] || x in b[1..];
      }
      AscendingIsUnique(a[1..], b[1..]);
      assert a == [a[0]] + a[1..] && b == [b[0]] + b[1..];
    }
  }

  lemma FirstIsLeast(a: seq<Text>, b: seq<Text>)
    requires Ascending(a) && a != [] && b != [] && b[0] in a
    ensures a[0] == b[0] || Less(a[0], b[0])
  {
  }

  lemma SameKeysSameOrder(a: seq<Member>, b: seq<Member>)
    requires Distinct(KeysOf(a)) && Distinct(KeysOf(b)) && forall x :: x in KeysOf(a) <==> x in KeysOf(b)
    ensures CanonicalKeys(a) == CanonicalKeys(b)
  {
    var less := (a: Text, b: Text) => Less(a, b);
    SortPermutes(KeysOf(a), (a, b) => Less(a, b));
    SortPermutes(KeysOf(b), (a, b) => Less(a, b));
    SortAscends(KeysOf(a));
    SortAscends(KeysOf(b));
    AscendingIsUnique(Sort(KeysOf(a), (a, b) => Less(a, b)), Sort(KeysOf(b), (a, b) => Less(a, b)));
  }

  lemma IndexIsUnique(members: seq<Member>, k: nat)
    requires Distinct(KeysOf(members)) && k < |members|
    ensures members[k].key in KeysOf(members) && IndexOf(members, members[k].key) == k
  {
    hide KeysOf;
    assert KeysOf(members)[k] == members[k].key;
    var i := IndexOf(members, members[k].key);
    assert KeysOf(members)[i] == KeysOf(members)[k];
  }

  // ---------------------------------------------------------------- the main results

  /** Two values have the same canonical form exactly when they are equal up to the order of
      object members, at every depth. */
  lemma {:induction false} CanonicalFormDecides(a: Json, b: Json)
    requires UniqueKeys(a) && UniqueKeys(b)
    ensures Visit(a) == Visit(b) <==> SameValue(a, b)
    decreases a
  {
    if a.Array? && b.Array? && |a.items| == |b.items| {
      forall k | 0 <= k < |a.items|
        ensures Visit(a.items[k]) == Visit(b.items[k]) <==> SameValue(a.items[k], b.items[k])
      {
        CanonicalFormDecides(a.items[k], b.items[k]);
      }
      if Visit(a) == Visit(b) {
        forall k | 0 <= k < |a.items| ensures Visit(a.items[k]) == Visit(b.items[k]) {
          assert Visit(a).items[k] == Visit(b).items[k];
        }
      }
    } else if a.Object? && b.Object? {
      forall k | 0 <= k < |a.members| && a.members[k].key in KeysOf(b.members)
        ensures var other := b.members[IndexOf(b.members, a.members[k].key)];
                Visit(a.members[k].value) == Visit(other.value) <==> SameValue(a.members[k].value, other.value)
      {
        CanonicalFormDecides(a.members[k].value, b.members[IndexOf(b.members, a.members[k].key)].value);
      }
      if SameValue(a, b) { SameObjectsVisitAlike(a, b); }
      if Visit(a) == Visit(b) { VisitsAlikeSameObjects(a, b); }
    }
  }

  lemma SameObjectsVisitAlike(a: Json, b: Json)
    requires a.Object? && b.Object? && UniqueKeys(a) && UniqueKeys(b) && SameValue(a, b)
    requires forall k :: 0 <= k < |a.members| && a.members[k].key in KeysOf(b.members) ==>
               Visit(a.members[k].value) == Visit(b.members[IndexOf(b.members, a.members[k].key)].value)
    ensures Visit(a) == Visit(b)
  {
    SameKeysSameOrder(a.members, b.members);
    var keys := CanonicalKeys(a.members);
    CanonicalKeysPermute(a.members);
    forall k | 0 <= k < |keys|
      ensures Visit(a.members[IndexOf(a.members, keys[k])].value) == Visit(b.members[IndexOf(b.members, keys[k])].value)
    {
      assert keys[k] in keys;
      var i := IndexOf(a.members, keys[k]);
      assert a.members[i].key == keys[k];
    }
  }

  lemma VisitsAlikeSameObjects(a: Json, b: Json)
    requires a.Object? && b.Object? && UniqueKeys(a) && UniqueKeys(b) && Visit(a) == Visit(b)
    requires forall k :: 0 <= k < |a.members| && a.members[k].key in KeysOf(b.members) ==>
               var other := b.members[IndexOf(b.members, a.members[k].key)];
               Visit(a.members[k].value) == Visit(other.value) <==> SameValue(a.members[k].value, other.value)
    ensures SameValue(a, b)
  {
    var keys, others := CanonicalKeys(a.members), CanonicalKeys(b.members);
    assert |keys| == |others| && forall k :: 0 <= k < |keys| ==> keys[k] == others[k] by {
      assert |Visit(a).members| == |keys| && |Visit(b).members| == |others|;
      forall k | 0 <= k < |keys| ensures keys[k] == others[k] {
        assert Visit(a).members[k].key == keys[k] && Visit(b).members[k].key == others[k];
      }
    }
    assert keys == others;
    CanonicalKeysPermute(a.members);
    CanonicalKeysPermute(b.members);
    forall k | 0 <= k < |a.members|
      ensures a.members[k].key in KeysOf(b.members)
      ensures SameValue(a.members[k].value, b.members[IndexOf(b.members, a.members[k].key)].value)
    {
      IndexIsUnique(a.members, k);
      var p :| 0 <= p < |keys| && keys[p] == a.members[k].key;
      assert Visit(a).members[p].value == Visit(b).members[p].value;
    }
  }

  /** The canonical form is the same value, in which keys are still unique. */
  lemma {:induction false} CanonicalFormIsSameValue(json: Json)
    requires UniqueKeys(json)
    ensures UniqueKeys(Visit(json)) && SameValue(json, Visit(json))
  {
    match json {
      case Leaf(_) =>
      case Array(items) =>
        forall k | 0 <= k < |items| ensures UniqueKeys(Visit(items[k])) && SameValue(items[k], Visit(items[k])) {
          CanonicalFormIsSameValue(items[k]);
        }
      case Object(members) =>
        forall k | 0 <= k < |members|
          ensures UniqueKeys(Visit(members[k].value)) && SameValue(members[k].value, Visit(members[k].value))
        {
          CanonicalFormIsSameValue(members[k].value);
        }
        VisitedObject(json);
    }
  }

  lemma VisitedObject(json: Json)
    requires json.Object? && UniqueKeys(json)
    requires forall k :: 0 <= k < |json.members| ==>
               UniqueKeys(Visit(json.members[k].value))
                 && SameValue(json.members[k].value, Visit(json.members[k].value))
    ensures UniqueKeys(Visit(json)) && SameValue(json, Visit(json))
  {
    hide KeysOf, CanonicalKeys;
    var members, visited, keys := json.members, Visit(json).members, CanonicalKeys(json.members);
    CanonicalKeysPermute(members);
    assert KeysOf(visited) == keys;
    forall k | 0 <= k < |visited| ensures UniqueKeys(visited[k].value) {
      assert keys[k] in keys;
    }
    forall k | 0 <= k < |members|
      ensures SameValue(members[k].value, visited[IndexOf(visited, members[k].key)].value)
    {
      IndexIsUnique(members, k);
      assert visited[IndexOf(visited, members[k].key)].value == Visit(members[k].value);
    }
  }

  /** Canonical forms are their own canonical forms. */
  lemma VisitIsIdempotent(json: Json)
    requires UniqueKeys(json)
    ensures Visit(Visit(json)) == Visit(json)
  {
    CanonicalFormIsSameValue(json);
    CanonicalFormDecides(json, Visit(json));
  }

  // ---------------------------------------------------------------- the order of the keys

  /** The texts part at k, where the first ends or has the smaller unit. */
  predicate PartsAt(a: Text, b: Text, k: nat) {
    && k <= |a| && k < |b| && (forall j :: 0 <= j < k ==> a[j] == b[j])
    && (k == |a| || a[k] < b[k])
  }

  /** `Less` is the order of JavaScript's `sort`: by the first code unit that differs, and a proper
      prefix comes first. */
  lemma {:induction false} LessIff(a: Text, b: Text)
    ensures Less(a, b) <==> exists k: nat :: PartsAt(a, b, k)
  {
    if a == [] || b == [] || a[0] != b[0] {
      assert Less(a, b) ==> PartsAt(a, b, 0);
    } else {
      LessIff(a[1..], b[1..]);
      if k: nat :| PartsAt(a[1..], b[1..], k) {
        forall j | 0 <= j < k + 1 ensures a[j] == b[j] {
          assert j > 0 ==> a[1..][j - 1] == b[1..][j - 1];
        }
        assert PartsAt(a, b, k + 1);
      }
      if k: nat :| PartsAt(a, b, k) {
        assert k > 0;
        assert forall j :: 0 <= j < k - 1 ==> a[1..][j] == a[j + 1];
        assert PartsAt(a[1..], b[1..], k - 1);
      }
    }
  }

  /** Array indices come first, by number; the other keys follow, by code units. */
  predicate InOrder(a: Text, b: Text) {
    if IsIndex(a) && IsIndex(b) then NumberOf(a) <= NumberOf(b) else IsIndex(a) || (!IsIndex(b) && Less(a, b))
  }

  predicate NumbersAscend(keys: seq<Text>) {
    forall j, k :: 0 <= j < k < |keys| ==> NumberOf(keys[j]) <= NumberOf(keys[k])
  }

  lemma {:induction false} InsertNumber(keys: seq<Text>, key: Text, less: (Text, Text) -> bool)
    requires NumbersAscend(keys) && forall a, b :: less(a, b) <==> NumberOf(a) < NumberOf(b)
    ensures NumbersAscend(Insert(keys, key, less))
  {
    hide NumberOf;
    if keys != [] && !less(key, keys[0]) {
      InsertNumber(keys[1..], key, less);
      InsertPermutes(keys[1..], key, less);
      var rest := Insert(keys[1..], key, less);
      forall k | 0 <= k < |rest| ensures NumberOf(keys[0]) <= NumberOf(rest[k]) {
        assert rest[k] in rest;
      }
    }
  }

  lemma {:induction false} SortNumbers(keys: seq<Text>, less: (Text, Text) -> bool)
    requires forall a, b :: less(a, b) <==> NumberOf(a) < NumberOf(b)
    ensures NumbersAscend(Sort(keys, less))
  {
    hide NumberOf, Insert;
    if keys != [] {
      SortNumbers(keys[1..], less);
      InsertNumber(Sort(keys[1..], less), keys[0], less);
    }
  }

  lemma {:induction false} FilterAscends(keys: seq<Text>, keep: Text -> bool)
    requires Ascending(keys)
    ensures Ascending(Filter(keys, keep))
  {
    hide Less;
    if keys != [] {
      FilterAscends(keys[1..], keep);
      FilterKeeps(keys[1..], keep);
      var rest := Filter(keys[1..], keep);
      forall k | 0 <= k < |rest| ensures Less(keys[0], rest[k]) {
        assert rest[k] in rest;
      }
    }
  }

  /** Canonical keys come in that order. */
  lemma CanonicalKeysInOrder(members: seq<Member>)
    requires Distinct(KeysOf(members))
    ensures var keys := CanonicalKeys(members);
            forall j, k :: 0 <= j < k < |keys| ==> InOrder(keys[j], keys[k])
  {
    hide IsIndex, NumberOf, Less, Sort, Filter;
    var sorted := Sort(KeysOf(members), (a, b) => Less(a, b));
    SortAscends(KeysOf(members));
    OwnOrderInOrder(sorted);
  }

  lemma OwnOrderInOrder(keys: seq<Text>)
    requires Ascending(keys)
    ensures forall j, k :: 0 <= j < k < |OwnOrder(keys)| ==> InOrder(OwnOrder(keys)[j], OwnOrder(keys)[k])
  {
    hide IsIndex, NumberOf, Less, Sort, Filter;
    var less := (a: Text, b: Text) => NumberOf(a) < NumberOf(b);
    var indices, others := Filter(keys, key => IsIndex(key)), Filter(keys, key => !IsIndex(key));
    FilterKeeps(keys, key => IsIndex(key));
    FilterKeeps(keys, key => !IsIndex(key));
    FilterAscends(keys, key => !IsIndex(key));
    SortPermutes(indices, less);
    SortNumbers(indices, less);
    var numbered := Sort(indices, less);
    assert forall k :: 0 <= k < |numbered| ==> numbered[k] in numbered;
    assert forall k :: 0 <= k < |others| ==> others[k] in others;
  }

  /** An integer in decimal, without leading zeros. */
  function Decimal(n: nat): Text {
    if n < 10 then [48 + n] else Decimal(n / 10) + [48 + n % 10]
  }

  lemma {:induction false} DecimalIs(n: nat)
    ensures Decimal(n) != [] && NumberOf(Decimal(n)) == n
    ensures forall k :: 0 <= k < |Decimal(n)| ==> IsDigit(Decimal(n)[k])
    ensures Decimal(n)[0] == 48 ==> n == 0
    ensures |Decimal(n)| == 1 <==> n < 10
  {
    if n >= 10 {
      DecimalIs(n / 10);
      assert Decimal(n)[..|Decimal(n)| - 1] == Decimal(n / 10);
    } else {
      assert [48 + n][..0] == [];
      assert NumberOf([48 + n]) == NumberOf([]) * 10 + 48 + n - 48;
    }
  }

  lemma {:induction false} DigitsAreDecimal(key: Text)
    requires key != [] && (forall k :: 0 <= k < |key| ==> IsDigit(key[k])) && (key[0] != 48 || |key| == 1)
    ensures NumberOf(key) >= 0 && key == Decimal(NumberOf(key)) && (key[0] != 48 ==> NumberOf(key) > 0)
  {
    var n := |key| - 1;
    if n == 0 {
      assert IsDigit(key[0]);
      assert key[..0] == [] && key == [key[0]] && NumberOf(key) == key[0] - 48;
    } else {
      DigitsAreDecimal(key[..n]);
      assert IsDigit(key[n]);
      DecimalStep(NumberOf(key[..n]), key[n] - 48);
      assert key == key[..n] + [key[n]];
      assert NumberOf(key) == NumberOf(key[..n]) * 10 + (key[n] - 48);
    }
  }

  lemma DecimalStep(high: nat, low: nat)
    requires high > 0 && low < 10
    ensures Decimal(high * 10 + low) == Decimal(high) + [48 + low]
  {
    assert (high * 10 + low) / 10 == high && (high * 10 + low) % 10 == low;
  }

  /** Array indices are the decimal forms of the integers below 2^32 - 1. */
  lemma IsIndexIff(key: Text)
    ensures IsIndex(key) <==> exists n: nat :: n < 0xFFFF_FFFF && key == Decimal(n)
  {
    hide NumberOf, IsDigit, Decimal;
    if IsIndex(key) { DigitsAreDecimal(key); }
    if n: nat :| n < 0xFFFF_FFFF && key == Decimal(n) { DecimalIs(n); }
  }
}
