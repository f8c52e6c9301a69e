/**
 * The platform values the app relies on: optionals, UUIDs, dates, the
 * property-list values kept in user defaults, and the trimming done by
 * `trimmingCharacters(in: .whitespaces)`.
 */
module Platform {

  /** Swift's `Optional`; with `:-` it reads like a `guard let` chain. */
  datatype Option<+T> = None | Some(value: T) {
    predicate IsFailure() {
      None?
    }

    function PropagateFailure<U>(): Option<U>
      requires None?
    {
      None
    }

    function Extract(): T
      requires Some?
    {
      value
    }
  }

  /** A `Date`, kept opaque: only its `timeIntervalSince1970` is recorded. */
  datatype Timestamp = Timestamp(sinceEpoch: real)

  // UUIDs

  predicate IsHexDigit(c: char) {
    '0' <= c <= '9' || 'A' <= c <= 'F' || 'a' <= c <= 'f'
  }

  predicate IsUpperHexDigit(c: char) {
    '0' <= c <= '9' || 'A' <= c <= 'F'
  }

  /** The positions of the hyphens in the 8-4-4-4-12 form. */
  predicate IsHyphenPosition(i: int) {
    i == 8 || i == 13 || i == 18 || i == 23
  }

  /** Text that `UUID(uuidString:)` accepts: 8-4-4-4-12 hex digits, either case. */
  predicate IsUuidText(s: string) {
    |s| == 36 &&
    forall i :: 0 <= i < |s| ==> if IsHyphenPosition(i) then s[i] == '-' else IsHexDigit(s[i])
  }

  /** Text that `uuidString` produces: the same form with upper-case digits. */
  predicate IsCanonicalUuidText(s: string) {
    |s| == 36 &&
    forall i :: 0 <= i < |s| ==> if IsHyphenPosition(i) then s[i] == '-' else IsUpperHexDigit(s[i])
  }

  /** A UUID, identified with its `uuidString`. Generation is left to the caller. */
  type Uuid = s: string | IsCanonicalUuidText(s)
    witness seq(36, i => if IsHyphenPosition(i) then '-' else '0')

  function UpperCased(c: char): char {
    if 'a' <= c <= 'f' then (c as int - 32) as char else c
  }

  /** `s` and `t` spell the same text once hex letters are upper-cased. */
  predicate EqualIgnoringCase(s: string, t: string) {
    |s| == |t| && forall i :: 0 <= i < |s| ==> UpperCased(s[i]) == UpperCased(t[i])
  }

  /** `UUID(uuidString:)`: `None` unless `s` has the UUID form. */
  function ParseUuid(s: string): (r: Option<Uuid>)
    ensures r.Some? <==> IsUuidText(s)
    ensures r.Some? ==> forall i :: 0 <= i < |s| ==> IsUpperHexDigit(s[i]) ==> r.value[i] == s[i]
    ensures r.Some? ==> EqualIgnoringCase(s, r.value)
  {
    if IsUuidText(s) then
      Some(seq(36, i requires 0 <= i < 36 => UpperCased(s[i])))
    else
      None
  }

  /** Parsing a UUID's own `uuidString` gives back that UUID. */
  lemma ParseUuidString(u: Uuid)
    ensures ParseUuid(u) == Some(u)
  {
    assert IsUuidText(u) by {
      forall i | 0 <= i < |u| ensures if IsHyphenPosition(i) then u[i] == '-' else IsHexDigit(u[i]) {
        assert IsCanonicalUuidText(u);
      }
    }
    var r := ParseUuid(u).value;
    forall i | 0 <= i < 36 ensures r[i] == u[i] {
      assert IsCanonicalUuidText(u);
      assert IsHyphenPosition(i) ==> u[i] == '-';
      assert !IsHyphenPosition(i) ==> IsUpperHexDigit(u[i]);
    }
    assert r == u;
  }

  /**
   * Parsing is case-insensitive: any text that spells `u` up to the case of
   * its hex letters parses to `u`.
   */
  lemma ParseUuidIgnoresCase(s: string, u: Uuid)
    requires EqualIgnoringCase(s, u)
    ensures ParseUuid(s) == Some(u)
  {
    forall i | 0 <= i < 36
      ensures (if IsHyphenPosition(i) then s[i] == '-' else IsHexDigit(s[i])) && UpperCased(s[i]) == u[i]
    {
      assert IsCanonicalUuidText(u);
      assert IsHyphenPosition(i) ==> u[i] == '-';
      assert !IsHyphenPosition(i) ==> IsUpperHexDigit(u[i]);
    }
    assert IsUuidText(s);
    var r := ParseUuid(s).value;
    assert forall i :: 0 <= i < 36 ==> r[i] == u[i];
    assert r == u;
  }

  // Property-list values

  /** A value stored in user defaults, with the type an `as?` cast recovers. */
  datatype Value =
    | VString(str: string)
    | VInt(number: int)
    | VBool(flag: bool)
    | VDouble(interval: real)
    | VDict(dict: map<string, Value>)

  /** `dict[key] as? String` */
  function AsString(d: map<string, Value>, key: string): (r: Option<string>)
    ensures r.Some? <==> key in d && d[key].VString?
    ensures r.Some? ==> d[key] == VString(r.value)
  {
    if key in d && d[key].VString? then Some(d[key].str) else None
  }

  /** `dict[key] as? Int` */
  function AsInt(d: map<string, Value>, key: string): (r: Option<int>)
    ensures r.Some? <==> key in d && d[key].VInt?
    ensures r.Some? ==> d[key] == VInt(r.value)
  {
    if key in d && d[key].VInt? then Some(d[key].number) else None
  }

  /** `dict[key] as? Bool` */
  function AsBool(d: map<string, Value>, key: string): (r: Option<bool>)
    ensures r.Some? <==> key in d && d[key].VBool?
    ensures r.Some? ==> d[key] == VBool(r.value)
  {
    if key in d && d[key].VBool? then Some(d[key].flag) else None
  }

  /** `dict[key] as? TimeInterval` */
  function AsDouble(d: map<string, Value>, key: string): (r: Option<real>)
    ensures r.Some? <==> key in d && d[key].VDouble?
    ensures r.Some? ==> d[key] == VDouble(r.value)
  {
    if key in d && d[key].VDouble? then Some(d[key].interval) else None
  }

  /** `defaults.dictionary(forKey: key)` */
  function AsDict(d: map<string, Value>, key: string): (r: Option<map<string, Value>>)
    ensures r.Some? <==> key in d && d[key].VDict?
    ensures r.Some? ==> d[key] == VDict(r.value)
  {
    if key in d && d[key].VDict? then Some(d[key].dict) else None
  }

  // Whitespace trimming

  /** `CharacterSet.whitespaces`: tab and the Unicode space separators (Zs). */
  predicate IsWhitespace(c: char) {
    || c == '\t'
    || c == ' '
    || c == '\U{A0}'
    || c == '\U{1680}'
    || '\U{2000}' <= c <= '\U{200A}'
    || c == '\U{202F}'
    || c == '\U{205F}'
    || c == '\U{3000}'
  }

  predicate AllWhitespace(s: string) {
    forall i :: 0 <= i < |s| ==> IsWhitespace(s[i])
  }

  /** The length of the run of whitespace that starts `s`. */
  function LeadingWhitespace(s: string): (n: nat)
    ensures n <= |s|
    ensures forall i :: 0 <= i < n ==> IsWhitespace(s[i])
    ensures n < |s| ==> !IsWhitespace(s[n])
  {
    if s == [] || !IsWhitespace(s[0]) then 0 else 1 + LeadingWhitespace(s[1..])
  }

  /** The length of the run of whitespace that ends `s`. */
  function TrailingWhitespace(s: string): (n: nat)
    ensures n <= |s|
    ensures forall i :: |s| - n <= i < |s| ==> IsWhitespace(s[i])
    ensures n < |s| ==> !IsWhitespace(s[|s| - 1 - n])
  {
    if s == [] || !IsWhitespace(s[|s| - 1]) then 0 else 1 + TrailingWhitespace(s[..|s| - 1])
  }

  /**
   * `s.trimmingCharacters(in: .whitespaces)`: the middle of `s` left once
   * whitespace is dropped from both ends.
   */
  function Trimmed(s: string): (t: string)
    ensures t == [] <==> AllWhitespace(s)
    ensures t != [] ==> !IsWhitespace(t[0]) && !IsWhitespace(t[|t| - 1])
    ensures LeadingWhitespace(s) + |t| <= |s|
    ensures t == s[LeadingWhitespace(s)..LeadingWhitespace(s) + |t|]
    ensures AllWhitespace(s[LeadingWhitespace(s) + |t|..])
  {
    var k := LeadingWhitespace(s);
    var rest := s[k..];
    rest[..|rest| - TrailingWhitespace(rest)]
  }
}
