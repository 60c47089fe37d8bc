/** JSON as serde_json's value model sees it: an object is an ordered sequence
    of key/value members, as `serde_json::to_string` writes them. Numbers are
    integers only, which is all the payloads of this library carry. */
module Json {
  import opened Wrappers
  import Numeric

  datatype Json =
    | JNull
    | JBool(b: bool)
    | JNumber(n: int)
    | JString(s: string)
    | JArray(items: seq<Json>)
    | JObject(members: seq<Member>)

  datatype Member = Member(key: string, value: Json)

  /** What a derived `Deserialize` finds under one key of an object. */
  datatype Field = Absent | Present(value: Json) | Duplicate

  function Keys(ms: seq<Member>): (ks: seq<string>)
    ensures |ks| == |ms|
    ensures forall i | 0 <= i < |ms| :: ks[i] == ms[i].key
  {
    if ms == [] then [] else [ms[0].key] + Keys(ms[1..])
  }

  /** `k` occurs nowhere in `s` from index `j` on. */
  predicate NotInFrom(k: string, s: seq<string>, j: nat)
    decreases |s| - j
  {
    j >= |s| || (s[j] != k && NotInFrom(k, s, j + 1))
  }

  /** No key of `s` from index `i` on occurs twice. */
  predicate NoDuplicatesFrom(s: seq<string>, i: nat)
    decreases |s| - i
  {
    i >= |s| || (NotInFrom(s[i], s, i + 1) && NoDuplicatesFrom(s, i + 1))
  }

  /** No key occurs twice. */
  predicate NoDuplicates(s: seq<string>) {
    NoDuplicatesFrom(s, 0)
  }

  /** `s[i]` occurs at index `i` only. */
  predicate OnlyAt(s: seq<string>, i: nat)
    requires i < |s|
  {
    forall j | 0 <= j < |s| && j != i :: s[j] != s[i]
  }

  lemma {:induction false} NotInFromAt(k: string, s: seq<string>, j: nat, m: nat)
    requires NotInFrom(k, s, j) && j <= m < |s|
    ensures s[m] != k
    decreases m - j
  {
    if j < m {
      NotInFromAt(k, s, j + 1, m);
    }
  }

  lemma {:induction false} NoDuplicatesFromAt(s: seq<string>, from: nat, i: nat, m: nat)
    requires NoDuplicatesFrom(s, from) && from <= i < m < |s|
    ensures s[i] != s[m]
    decreases i - from
  {
    if from < i {
      NoDuplicatesFromAt(s, from + 1, i, m);
    } else {
      NotInFromAt(s[i], s, i + 1, m);
    }
  }

  /** In a sequence without duplicates every key occurs only where it is. */
  lemma NoDuplicatesOnlyAt(s: seq<string>, i: nat)
    requires NoDuplicates(s) && i < |s|
    ensures OnlyAt(s, i)
  {
    forall j | 0 <= j < |s| && j != i ensures s[j] != s[i] {
      if j < i {
        NoDuplicatesFromAt(s, 0, j, i);
      } else {
        NoDuplicatesFromAt(s, 0, i, j);
      }
    }
  }

  /** `ks` is `order` with some entries left out: every key comes from `order`
      and the keys keep its order. */
  predicate IsSubsequence(ks: seq<string>, order: seq<string>)
    decreases |order|
  {
    if ks == [] then true
    else if order == [] then false
    else if ks[0] == order[0] then IsSubsequence(ks[1..], order[1..])
    else IsSubsequence(ks, order[1..])
  }

  /** The values stored under key `k`, in member order. */
  function ValuesOf(ms: seq<Member>, k: string): (vs: seq<Json>)
    ensures |vs| <= |ms|
    ensures k !in Keys(ms) ==> vs == []
  {
    if ms == [] then []
    else (if ms[0].key == k then [ms[0].value] else []) + ValuesOf(ms[1..], k)
  }

  function Lookup(ms: seq<Member>, k: string): (f: Field)
    ensures f == Absent <==> k !in Keys(ms)
  {
    var vs := ValuesOf(ms, k);
    if |vs| == 0 then
      assert k !in Keys(ms) by { ValuesOfMember(ms, k); }
      Absent
    else if |vs| == 1 then Present(vs[0])
    else Duplicate
  }

  /** The value of an object's key when it occurs exactly once. */
  function Get(j: Json, k: string): Option<Json> {
    if j.JObject? then
      match Lookup(j.members, k)
      case Present(v) => Some(v)
      case _ => None
    else None
  }

  /** The members serde writes for a struct whose fields have wire names
      `keys` and values `values`: each present value under its key, in
      declaration order; a None value (`skip_serializing_if =
      "Option::is_none"`) writes nothing. */
  function Compact(keys: seq<string>, values: seq<Option<Json>>): (ms: seq<Member>)
    requires |keys| == |values|
    ensures |ms| <= |keys|
  {
    if keys == [] then []
    else
      var rest := Compact(keys[1..], values[1..]);
      match values[0]
      case None => rest
      case Some(v) => [Member(keys[0], v)] + rest
  }

  lemma {:induction false} ValuesOfMember(ms: seq<Member>, k: string)
    ensures ValuesOf(ms, k) == [] <==> k !in Keys(ms)
  {
    if ms != [] {
      ValuesOfMember(ms[1..], k);
      assert Keys(ms) == [ms[0].key] + Keys(ms[1..]);
    }
  }

  function OptionToSeq(o: Option<Json>): seq<Json> {
    match o
    case None => []
    case Some(v) => [v]
  }

  function FieldOf(o: Option<Json>): Field {
    match o
    case None => Absent
    case Some(v) => Present(v)
  }

  /** A key outside the declared ones is never written. */
  lemma {:induction false} CompactAbsent(keys: seq<string>, values: seq<Option<Json>>, k: string)
    requires |keys| == |values| && k !in keys
    ensures ValuesOf(Compact(keys, values), k) == []
  {
    if keys != [] {
      assert k != keys[0];
      assert k !in keys[1..];
      CompactAbsent(keys[1..], values[1..], k);
      match values[0]
      case None =>
      case Some(v) =>
        var rest := Compact(keys[1..], values[1..]);
        assert ([Member(keys[0], v)] + rest)[1..] == rest;
    }
  }

  /** When the i-th key occurs nowhere else, it is written once with the i-th
      value when that value is present, and not at all otherwise. */
  lemma {:induction false} CompactAt(keys: seq<string>, values: seq<Option<Json>>, i: nat)
    requires |keys| == |values| && i < |keys| && OnlyAt(keys, i)
    ensures ValuesOf(Compact(keys, values), keys[i]) == OptionToSeq(values[i])
  {
    var k := keys[i];
    var tail := keys[1..];
    var rest := Compact(tail, values[1..]);
    if i == 0 {
      assert k !in tail by {
        forall j | 0 <= j < |tail| ensures tail[j] != k {
          assert tail[j] == keys[j + 1];
        }
      }
      CompactAbsent(tail, values[1..], k);
    } else {
      assert k == tail[i - 1];
      assert keys[0] != k;
      assert OnlyAt(tail, i - 1) by {
        forall j | 0 <= j < |tail| && j != i - 1 ensures tail[j] != tail[i - 1] {
          assert tail[j] == keys[j + 1];
        }
      }
      CompactAt(tail, values[1..], i - 1);
    }
    match values[0]
    case None =>
    case Some(v) =>
      assert ([Member(keys[0], v)] + rest)[1..] == rest;
  }

  /** A key that occurs once is found with its value. */
  lemma {:induction false} ValuesOfOnly(ms: seq<Member>, i: nat)
    requires i < |ms| && OnlyAt(Keys(ms), i)
    ensures ValuesOf(ms, ms[i].key) == [ms[i].value]
  {
    var k := ms[i].key;
    var tail := ms[1..];
    if i == 0 {
      forall j | 0 <= j < |tail| ensures Keys(tail)[j] != k {
        assert Keys(ms)[j + 1] == tail[j].key;
      }
    } else {
      assert Keys(ms)[0] != Keys(ms)[i];
      forall j | 0 <= j < |tail| && j != i - 1 ensures Keys(tail)[j] != Keys(tail)[i - 1] {
        assert Keys(ms)[j + 1] != Keys(ms)[i];
      }
      ValuesOfOnly(tail, i - 1);
    }
  }

  /** In an object without repeated keys, every member is found under its key. */
  lemma LookupAt(ms: seq<Member>, i: nat)
    requires i < |ms| && NoDuplicates(Keys(ms))
    ensures Lookup(ms, ms[i].key) == Present(ms[i].value)
  {
    NoDuplicatesOnlyAt(Keys(ms), i);
    ValuesOfOnly(ms, i);
  }

  /** Every undeclared key is absent. */
  lemma ObjectOutsideAll(keys: seq<string>, values: seq<Option<Json>>)
    requires |keys| == |values|
    ensures forall k | k !in keys :: Lookup(Object(keys, values).members, k) == Absent
  {
    forall k | k !in keys ensures Lookup(Object(keys, values).members, k) == Absent {
      CompactAbsent(keys, values, k);
    }
  }

  /** The written keys keep the declaration order. */
  lemma {:induction false} CompactOrder(keys: seq<string>, values: seq<Option<Json>>)
    requires |keys| == |values|
    ensures IsSubsequence(Keys(Compact(keys, values)), keys)
  {
    if keys != [] {
      CompactOrder(keys[1..], values[1..]);
      var rest := Compact(keys[1..], values[1..]);
      match values[0]
      case None =>
        SubsequenceSkip(Keys(rest), keys);
      case Some(v) =>
        assert Keys([Member(keys[0], v)] + rest)[1..] == Keys(rest);
    }
  }

  /** When every value is present, every field is written, in order. */
  lemma {:induction false} CompactComplete(keys: seq<string>, values: seq<Option<Json>>)
    requires |keys| == |values| && None !in values
    ensures |Compact(keys, values)| == |keys|
    ensures forall i | 0 <= i < |keys| :: Compact(keys, values)[i] == Member(keys[i], values[i].value)
  {
    if keys != [] {
      assert values == [values[0]] + values[1..];
      CompactComplete(keys[1..], values[1..]);
    }
  }

  /** Values that are None from index `n` on write nothing. */
  lemma {:induction false} CompactPrefix(keys: seq<string>, values: seq<Option<Json>>, n: nat)
    requires |keys| == |values| && n <= |keys|
    requires forall i | n <= i < |values| :: values[i].None?
    ensures Compact(keys, values) == Compact(keys[..n], values[..n])
  {
    if keys != [] {
      CompactPrefix(keys[1..], values[1..], if n == 0 then 0 else n - 1);
      if n > 0 {
        assert keys[..n][1..] == keys[1..][..n - 1];
        assert values[..n][1..] == values[1..][..n - 1];
      }
    }
  }

  lemma CompactKeys(keys: seq<string>, values: seq<Option<Json>>)
    requires |keys| == |values|
    ensures None !in values ==> Keys(Compact(keys, values)) == keys
  {
    if None !in values {
      CompactComplete(keys, values);
    }
  }

  /** A None value is left out rather than written as `null`, so only a
      value that is itself `null` can put one in the object. */
  lemma {:induction false} CompactNoNull(keys: seq<string>, values: seq<Option<Json>>)
    requires |keys| == |values|
    ensures Some(JNull) !in values ==>
      forall i | 0 <= i < |Compact(keys, values)| :: Compact(keys, values)[i].value != JNull
  {
    if keys != [] && Some(JNull) !in values {
      assert values == [values[0]] + values[1..];
      CompactNoNull(keys[1..], values[1..]);
    }
  }

  /** The object serde writes for a struct: the present fields under their
      keys, in declaration order, and nothing else. */
  function Object(keys: seq<string>, values: seq<Option<Json>>): Json
    requires |keys| == |values|
  {
    JObject(Compact(keys, values))
  }

  /** The written keys keep the declaration order, every key is written when
      every value is present, and a None value never shows up as `null`. */
  lemma ObjectShape(keys: seq<string>, values: seq<Option<Json>>)
    requires |keys| == |values|
    ensures Object(keys, values).JObject?
    ensures IsSubsequence(Keys(Object(keys, values).members), keys)
    ensures None !in values ==> Keys(Object(keys, values).members) == keys
    ensures Some(JNull) !in values ==>
      forall i | 0 <= i < |Object(keys, values).members| :: Object(keys, values).members[i].value != JNull
  {
    CompactOrder(keys, values);
    CompactKeys(keys, values);
    CompactNoNull(keys, values);
  }

  /** Field `i` is found under its own key exactly when it is present. */
  lemma ObjectAt(keys: seq<string>, values: seq<Option<Json>>, i: nat)
    requires |keys| == |values| && NoDuplicates(keys) && i < |keys|
    ensures Lookup(Object(keys, values).members, keys[i]) == FieldOf(values[i])
    ensures Get(Object(keys, values), keys[i]) == values[i]
  {
    NoDuplicatesOnlyAt(keys, i);
    CompactAt(keys, values, i);
  }

  /** An undeclared key is absent. */
  lemma ObjectOutside(keys: seq<string>, values: seq<Option<Json>>, k: string)
    requires |keys| == |values| && k !in keys
    ensures Lookup(Object(keys, values).members, k) == Absent
  {
    CompactAbsent(keys, values, k);
  }

  lemma {:induction false} SubsequenceSkip(ks: seq<string>, order: seq<string>)
    requires order != []
    requires IsSubsequence(ks, order[1..])
    ensures IsSubsequence(ks, order)
    decreases |order|, 0
  {
    if ks != [] && ks[0] == order[0] {
      if |order| > 1 {
        SubsequenceTail(ks, order[1..]);
      }
    }
  }

  lemma {:induction false} SubsequenceTail(ks: seq<string>, order: seq<string>)
    requires ks != [] && IsSubsequence(ks, order)
    ensures IsSubsequence(ks[1..], order)
    decreases |order|, 1
  {
    if order != [] && ks[0] != order[0] {
      SubsequenceTail(ks, order[1..]);
      SubsequenceSkip(ks[1..], order);
    } else if order != [] {
      if ks[1..] != [] {
        SubsequenceSkip(ks[1..], order);
      }
    }
  }

  // Text output of `serde_json::to_string`: compact, no whitespace.

  /** A character serde_json cannot write verbatim inside a string. */
  predicate NeedsEscape(c: char) {
    c == '"' || c == '\\' || c < ' '
  }

  function HexDigit(d: nat): char
    requires d < 16
  {
    "0123456789abcdef"[d]
  }

  /** serde_json's escape table: the short forms for quote, backslash,
      backspace, form feed, newline, carriage return and tab, `\u00XX` with
      lower-case hex for the other control characters, and every other
      character as it is. */
  function EscapeChar(c: char): (e: string)
    ensures !NeedsEscape(c) ==> e == [c]
    ensures NeedsEscape(c) ==> |e| >= 2 && e[0] == '\\'
  {
    if c == '"' then "\\\""
    else if c == '\\' then "\\\\"
    else if c as int == 8 then "\\b"
    else if c as int == 12 then "\\f"
    else if c == '\n' then "\\n"
    else if c == '\r' then "\\r"
    else if c == '\t' then "\\t"
    else if c < ' ' then "\\u00" + [HexDigit(c as int / 16), HexDigit(c as int % 16)]
    else [c]
  }

  function Escape(s: string): string {
    if s == [] then [] else EscapeChar(s[0]) + Escape(s[1..])
  }

  /** A string no character of which needs escaping is written as it is. */
  lemma {:induction false} EscapePlain(s: string)
    requires forall i | 0 <= i < |s| :: !NeedsEscape(s[i])
    ensures Escape(s) == s
  {
    if s != [] {
      EscapePlain(s[1..]);
    }
  }

  function Quote(s: string): string {
    "\"" + Escape(s) + "\""
  }

  function RenderNumber(n: int): (t: string)
    ensures n >= 0 ==> t == Numeric.NatToDecimal(n)
  {
    if n < 0 then "-" + Numeric.NatToDecimal(-n) else Numeric.NatToDecimal(n)
  }

  /** `serde_json::to_string`: compact text, objects in braces, arrays in
      brackets, strings in quotes, and a string needing no escape written
      verbatim between its quotes. */
  function Render(j: Json): (t: string)
    decreases j, 2
    ensures |t| >= 1
    ensures j.JObject? ==> t[0] == '{' && t[|t| - 1] == '}'
    ensures j.JArray? ==> t[0] == '[' && t[|t| - 1] == ']'
    ensures j.JString? ==> t[0] == '"' && t[|t| - 1] == '"'
    ensures j.JString? && (forall i | 0 <= i < |j.s| :: !NeedsEscape(j.s[i])) ==> t == "\"" + j.s + "\""
  {
    match j
    case JNull => "null"
    case JBool(b) => Numeric.BoolToString(b)
    case JNumber(n) => RenderNumber(n)
    case JString(s) =>
      if forall i | 0 <= i < |s| :: !NeedsEscape(s[i]) then
        EscapePlain(s);
        Quote(s)
      else
        Quote(s)
    case JArray(items) => "[" + RenderItems(j, items) + "]"
    case JObject(ms) => "{" + RenderMembers(j, ms) + "}"
  }

  function RenderItems(ghost parent: Json, items: seq<Json>): string
    requires forall i | 0 <= i < |items| :: items[i] < parent
    decreases parent, 1, |items|
  {
    if items == [] then ""
    else if |items| == 1 then Render(items[0])
    else Render(items[0]) + "," + RenderItems(parent, items[1..])
  }

  function RenderMembers(ghost parent: Json, ms: seq<Member>): string
    requires forall i | 0 <= i < |ms| :: ms[i].value < parent
    decreases parent, 1, |ms|
  {
    if ms == [] then ""
    else
      var first := Quote(ms[0].key) + ":" + Render(ms[0].value);
      if |ms| == 1 then first else first + "," + RenderMembers(parent, ms[1..])
  }
}
