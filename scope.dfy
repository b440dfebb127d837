/**
 * The scope vocabulary: a scope is an identifier with a description, an access
 * is READ or WRITE, and a scope request "id.read" / "id.write" names a scope
 * and an access.
 */
module Scopes {
  import opened Wrappers
  import opened Errors

  datatype Scope = Scope(identifier: string, description: string)

  datatype ScopeAccess = READ | WRITE

  datatype AllowedScope = AllowedScope(scope: Scope, access: ScopeAccess)

  datatype ScopeRequest = ScopeRequest(identifier: string, access: ScopeAccess)

  /** `Scope.equals`: the other object is a Scope with the same identifier and description. */
  predicate ScopeEquals(a: Scope, other: Option<Scope>)
  {
    other.Some? && other.value.identifier == a.identifier
    && other.value.description == a.description
  }

  lemma ScopeEqualsIsStructural(a: Scope, other: Option<Scope>)
    ensures ScopeEquals(a, other) <==> other == Some(a)
  {
  }

  function ToAccessString(a: ScopeAccess): string
  {
    match a
    case READ => "read"
    case WRITE => "write"
  }

  function FromAccessString(s: string): (r: Result<ScopeAccess, Exception>)
    ensures r.Ok? <==> s == "read" || s == "write"
    ensures r.Err? ==> r.error == ScopeAccessException(s)
    ensures r.Ok? ==> ToAccessString(r.value) == s
  {
    if s == "read" then Ok(READ)
    else if s == "write" then Ok(WRITE)
    else Err(ScopeAccessException(s))
  }

  lemma AccessRoundTrip(a: ScopeAccess)
    ensures FromAccessString(ToAccessString(a)) == Ok(a)
  {
  }

  /** Upper-case spellings are rejected: the match is exact. */
  lemma UpperCaseAccessRejected()
    ensures FromAccessString("READ") == Err(ScopeAccessException("READ"))
    ensures FromAccessString("WRITE") == Err(ScopeAccessException("WRITE"))
  {
  }

  function ToScopeRequest(a: AllowedScope): (r: ScopeRequest)
    ensures r.identifier == a.scope.identifier && r.access == a.access
  {
    ScopeRequest(a.scope.identifier, a.access)
  }

  /** Two allowed scopes that differ only in description give the same request. */
  lemma ToScopeRequestForgetsDescription(a: AllowedScope, d: string)
    ensures ToScopeRequest(AllowedScope(Scope(a.scope.identifier, d), a.access)) == ToScopeRequest(a)
  {
  }

  // ---------------------------------------------------------------------------
  // Kotlin's `String.split(".")`: every occurrence of the separator cuts, empty
  // parts are kept, and the result is never empty.

  function Split(s: string, sep: char): (parts: seq<string>)
    ensures |parts| >= 1
  {
    if s == [] then [[]]
    else
      var rest := Split(s[1..], sep);
      if s[0] == sep then [[]] + rest else [[s[0]] + rest[0]] + rest[1..]
  }

  function Join(parts: seq<string>, sep: char): string
    requires |parts| >= 1
  {
    if |parts| == 1 then parts[0] else parts[0] + [sep] + Join(parts[1..], sep)
  }

  function Count(s: string, c: char): nat
  {
    if s == [] then 0 else (if s[0] == c then 1 else 0) + Count(s[1..], c)
  }

  lemma {:induction false} SplitJoin(s: string, sep: char)
    ensures Join(Split(s, sep), sep) == s
    ensures forall i :: 0 <= i < |Split(s, sep)| ==> sep !in Split(s, sep)[i]
    ensures |Split(s, sep)| == Count(s, sep) + 1
  {
    if s != [] {
      SplitJoin(s[1..], sep);
      var rest := Split(s[1..], sep);
      if s[0] != sep {
        var parts := Split(s, sep);
        assert parts[0] == [s[0]] + rest[0];
        if |rest| > 1 {
          assert parts[1..] == rest[1..];
          assert Join(rest, sep) == rest[0] + [sep] + Join(rest[1..], sep);
        }
        forall i | 0 <= i < |parts| ensures sep !in parts[i] {
          if i > 0 { assert parts[i] == rest[i]; }
        }
      } else {
        var parts := Split(s, sep);
        assert parts[1..] == rest;
        forall i | 0 <= i < |parts| ensures sep !in parts[i] {
          if i > 0 { assert parts[i] == rest[i - 1]; }
        }
      }
    }
  }

  lemma {:induction false} SplitNoSeparator(s: string, sep: char)
    requires sep !in s
    ensures Split(s, sep) == [s]
  {
    if s != [] {
      SplitNoSeparator(s[1..], sep);
      assert [s[0]] + s[1..] == s;
    }
  }

  lemma {:induction false} SplitAtFirst(x: string, y: string, sep: char)
    requires sep !in x
    ensures Split(x + [sep] + y, sep) == [x] + Split(y, sep)
  {
    if x == [] {
      assert x + [sep] + y == [sep] + y;
      assert ([sep] + y)[1..] == y;
    } else {
      assert (x + [sep] + y)[1..] == x[1..] + [sep] + y;
      SplitAtFirst(x[1..], y, sep);
      assert [x[0]] + x[1..] == x;
    }
  }

  lemma {:induction false} CountAppend(a: string, b: string, c: char)
    ensures Count(a + b, c) == Count(a, c) + Count(b, c)
  {
    if a == [] {
      assert a + b == b;
    } else {
      assert (a + b)[1..] == a[1..] + b;
      CountAppend(a[1..], b, c);
    }
  }

  lemma {:induction false} CountPositive(s: string, c: char)
    requires c in s
    ensures Count(s, c) >= 1
  {
    if s[0] != c {
      CountPositive(s[1..], c);
    }
  }

  // ---------------------------------------------------------------------------

  /**
   * `toScopeRequestString`: the wire form holds exactly one '.' more than the
   * identifier, and for an undotted identifier splitting at '.' gives back the
   * identifier and the access string.
   */
  function ScopeRequestString(r: ScopeRequest): (s: string)
    ensures Count(s, '.') == Count(r.identifier, '.') + 1
    ensures '.' !in r.identifier ==> Split(s, '.') == [r.identifier, ToAccessString(r.access)]
  {
    var acc := ToAccessString(r.access);
    WireFormParts(r.identifier, acc);
    r.identifier + "." + acc
  }

  /** The '.'-joined pair of an identifier and an undotted tail: its dot count, and its split when the identifier is undotted. */
  lemma WireFormParts(id: string, acc: string)
    requires '.' !in acc
    ensures Count(id + "." + acc, '.') == Count(id, '.') + 1
    ensures '.' !in id ==> Split(id + "." + acc, '.') == [id, acc]
  {
    assert id + "." + acc == id + ['.'] + acc == id + (['.'] + acc);
    CountAppend(id, ['.'] + acc, '.');
    CountAppend(['.'], acc, '.');
    SplitJoin(acc, '.');
    SplitNoSeparator(acc, '.');
    if '.' !in id {
      SplitAtFirst(id, acc, '.');
    }
  }

  function FromScopeRequestString(s: string): (r: Result<ScopeRequest, Exception>)
    ensures r.Err? ==> r.error in {ScopeRequestException(s), ScopeAccessException(Split(s, '.')[|Split(s, '.')| - 1])}
  {
    var components := Split(s, '.');
    if |components| != 2 then Err(ScopeRequestException(s))
    else
      match FromAccessString(components[1])
      case Err(e) => Err(e)
      case Ok(access) => Ok(ScopeRequest(components[0], access))
  }

  /** A request whose identifier has no '.' survives the string round trip. */
  lemma ScopeRequestRoundTrip(r: ScopeRequest)
    requires '.' !in r.identifier
    ensures FromScopeRequestString(ScopeRequestString(r)) == Ok(r)
  {
    var acc := ToAccessString(r.access);
    SplitAtFirst(r.identifier, acc, '.');
    SplitNoSeparator(acc, '.');
    assert ScopeRequestString(r) == r.identifier + ['.'] + acc;
  }

  /** A request whose identifier contains '.' never round-trips: it splits into three or more parts. */
  lemma DottedIdentifierRejected(r: ScopeRequest)
    requires '.' in r.identifier
    ensures FromScopeRequestString(ScopeRequestString(r)) == Err(ScopeRequestException(ScopeRequestString(r)))
  {
    var s := ScopeRequestString(r);
    SplitJoin(s, '.');
    CountAppend(r.identifier, "." + ToAccessString(r.access), '.');
    CountAppend(".", ToAccessString(r.access), '.');
    assert r.identifier + "." + ToAccessString(r.access) == r.identifier + ("." + ToAccessString(r.access));
    CountPositive(r.identifier, '.');
  }

  /**
   * The parser succeeds exactly on the rendered form of a request with a
   * dot-free identifier; together with the round trip this makes the two an
   * exact inverse pair on that domain.
   */
  lemma FromScopeRequestStringExact(s: string, r: ScopeRequest)
    ensures FromScopeRequestString(s) == Ok(r) <==> '.' !in r.identifier && s == ScopeRequestString(r)
  {
    if FromScopeRequestString(s) == Ok(r) {
      var parts := Split(s, '.');
      SplitJoin(s, '.');
      assert |parts| == 2;
      assert Join(parts[1..], '.') == parts[1];
      assert s == parts[0] + ['.'] + parts[1];
      assert '.' !in parts[0];
    }
    if '.' !in r.identifier && s == ScopeRequestString(r) {
      ScopeRequestRoundTrip(r);
    }
  }

  /** A string with exactly one '.' but a bad access part raises ScopeAccessException, not ScopeRequestException. */
  lemma BadAccessPart(id: string, acc: string)
    requires '.' !in id && '.' !in acc && acc != "read" && acc != "write"
    ensures FromScopeRequestString(id + "." + acc) == Err(ScopeAccessException(acc))
  {
    SplitAtFirst(id, acc, '.');
    SplitNoSeparator(acc, '.');
    assert id + "." + acc == id + ['.'] + acc;
  }

  /** Every string whose split does not give exactly two parts raises ScopeRequestException. */
  lemma WrongPartCountRejected(s: string)
    requires Count(s, '.') != 1
    ensures FromScopeRequestString(s) == Err(ScopeRequestException(s))
  {
    SplitJoin(s, '.');
  }
}
