/**
 * Shared vocabulary of the e-commerce backend model: optional values, the
 * outcome of a service call, the failures the services raise, Java string
 * helpers (trim, case-insensitive comparison) and the left-to-right sums and
 * single-result lookups the repositories and streams perform.
 */
module Common {

  type UserId = int
  type AddressId = int
  type CategoryId = int
  type SubCategoryId = int
  type ProductId = int
  type OrderId = int
  type CartId = int
  type CartItemId = int
  type ReviewId = int
  type VendorId = int

  /** Money in minor units: the services only add and multiply by integers. */
  type Money = int

  datatype Option<T> = None | Some(value: T)

  /** The tables a lookup can miss in. */
  datatype Record =
    | UserRecord | AddressRecord | CategoryRecord | SubCategoryRecord | ProductRecord
    | OrderRecord | OrderItemRecord | CartRecord | CartItemRecord | ReviewRecord | VendorRecord

  /** Fields named by duplicate and validation failures. */
  datatype Field = Email | Phone | ShopName | TaxNumber | VendorProfile | Rating | Comment | Quantity

  /** Business rules a service refuses to break. */
  datatype Rule =
    | InactiveUserCannotBecomeVendor
    | AdminCannotBecomeVendor
    | RejectedVendorCannotBeActivated
    | VendorRoleIsLocked
    | VendorCannotBeDeactivated
    | UserOwnsVendor

  /** Every exception a modelled service raises, one variant per kind. */
  datatype Error =
    | NotFound(record: Record)
    | OrderNotModifiable
    | InsufficientStock
    | EmptyCart
    | InvalidArgument(field: Field)
    | Invalid(field: Field)
    | AlreadyExists(field: Field)
    | AlreadyReviewed
    | BusinessRule(rule: Rule)
    | Unauthorized
    | SubCategoryMismatch
    | NonUniqueResult
    | UniqueViolation
    | ForeignKeyViolation
    | NullReference
    | OperationFailed(cause: Error)

  datatype Result<T> = Ok(value: T) | Err(error: Error)

  /** The pass/fail outcome of a validation step. */
  datatype Check = Pass | Fail(error: Error)

  // ---------------------------------------------------------------------
  // Left-to-right sums, as `stream().reduce(0, add)` computes them

  function Sum<T>(s: seq<T>, f: T -> int): int
  {
    if s == [] then 0 else Sum(s[..|s| - 1], f) + f(s[|s| - 1])
  }

  lemma SumAppend<T>(s: seq<T>, x: T, f: T -> int)
    ensures Sum(s + [x], f) == Sum(s, f) + f(x)
  {
    assert (s + [x])[..|s|] == s;
  }

  lemma {:induction false} SumConcat<T>(a: seq<T>, b: seq<T>, f: T -> int)
    ensures Sum(a + b, f) == Sum(a, f) + Sum(b, f)
    decreases |b|
  {
    if b == [] {
      assert a + b == a;
    } else {
      var last := b[|b| - 1];
      var front := b[..|b| - 1];
      assert a + b == (a + front) + [last];
      assert b == front + [last];
      SumAppend(a + front, last, f);
      SumConcat(a, front, f);
      SumAppend(front, last, f);
    }
  }

  /** Replacing one element changes the sum by the difference of the two values. */
  lemma {:induction false} SumUpdate<T>(s: seq<T>, i: nat, x: T, f: T -> int)
    requires i < |s|
    ensures Sum(s[i := x], f) == Sum(s, f) - f(s[i]) + f(x)
  {
    var prefix := s[..i];
    var suffix := s[i + 1..];
    assert s == prefix + [s[i]] + suffix;
    assert s[i := x] == prefix + [x] + suffix;
    SumConcat(prefix + [s[i]], suffix, f);
    SumConcat(prefix + [x], suffix, f);
    SumAppend(prefix, s[i], f);
    SumAppend(prefix, x, f);
  }

  /** Removing one element takes exactly its value off the sum. */
  lemma {:induction false} SumRemove<T>(s: seq<T>, i: nat, f: T -> int)
    requires i < |s|
    ensures Sum(s[..i] + s[i + 1..], f) == Sum(s, f) - f(s[i])
  {
    assert s == (s[..i] + [s[i]]) + s[i + 1..];
    SumConcat(s[..i] + [s[i]], s[i + 1..], f);
    SumConcat(s[..i], s[i + 1..], f);
    SumAppend(s[..i], s[i], f);
  }

  // ---------------------------------------------------------------------
  // Order-preserving selection, as `stream().filter(...)` and derived list queries compute it

  function Keep<T(!new)>(s: seq<T>, f: T -> bool): (r: seq<T>)
    ensures |r| <= |s|
    ensures forall x :: x in r <==> x in s && f(x)
  {
    if s == [] then [] else (if f(s[0]) then [s[0]] else []) + Keep(s[1..], f)
  }

  /** Selecting from a concatenation selects from each part. */
  lemma {:induction false} KeepConcat<T(!new)>(a: seq<T>, b: seq<T>, f: T -> bool)
    ensures Keep(a + b, f) == Keep(a, f) + Keep(b, f)
  {
    if a != [] {
      assert (a + b)[0] == a[0] && (a + b)[1..] == a[1..] + b;
      KeepConcat(a[1..], b, f);
    } else {
      assert a + b == b;
    }
  }

  /** Selecting twice with conditions no element meets together selects nothing. */
  lemma {:induction false} KeepExclusive<T(!new)>(s: seq<T>, f: T -> bool, g: T -> bool)
    requires forall x :: f(x) ==> !g(x)
    ensures Keep(Keep(s, f), g) == []
  {
    if s != [] {
      var head := if f(s[0]) then [s[0]] else [];
      KeepConcat(head, Keep(s[1..], f), g);
      KeepExclusive(s[1..], f, g);
      if f(s[0]) {
        assert Keep(head, g) == [] + Keep([], g);
      }
    }
  }

  /** Selecting with a condition every element meets keeps the whole sequence. */
  lemma {:induction false} KeepAll<T(!new)>(s: seq<T>, f: T -> bool)
    requires forall x :: x in s ==> f(x)
    ensures Keep(s, f) == s
  {
    if s != [] {
      assert forall x :: x in s[1..] ==> x in s;
      KeepAll(s[1..], f);
      assert s == [s[0]] + s[1..];
    }
  }

  /** Selecting twice with the same condition is selecting once. */
  lemma KeepIdempotent<T(!new)>(s: seq<T>, f: T -> bool)
    ensures Keep(Keep(s, f), f) == Keep(s, f)
  {
    KeepAll(Keep(s, f), f);
  }

  /** A measure that counts only the elements meeting a condition. */
  function Masked<T>(f: T -> bool, g: T -> int): T -> int
  {
    (x: T) => if f(x) then g(x) else 0
  }

  /** Summing over a selection is summing the masked measure over everything. */
  lemma {:induction false} SumKeep<T(!new)>(s: seq<T>, f: T -> bool, g: T -> int)
    ensures Sum(Keep(s, f), g) == Sum(s, Masked(f, g))
  {
    if s != [] {
      var head := if f(s[0]) then [s[0]] else [];
      SumKeep(s[1..], f, g);
      SumConcat(head, Keep(s[1..], f), g);
      assert s == [s[0]] + s[1..];
      SumConcat([s[0]], s[1..], Masked(f, g));
      assert Sum([s[0]], Masked(f, g)) == Masked(f, g)(s[0]) by {
        assert [s[0]][..0] == [];
      }
      if f(s[0]) {
        assert Sum(head, g) == g(s[0]) by {
          assert head[..0] == [];
        }
      }
    }
  }

  // ---------------------------------------------------------------------
  // Single-result repository lookups

  /**
   * A derived query returning at most one row: no match gives None, one
   * match gives its index, and two matches raise, as Spring Data does for
   * an Optional-returning finder.
   */
  function FindUnique<T>(s: seq<T>, matches: T -> bool): (r: Result<Option<nat>>)
    ensures r.Ok? && r.value.Some? ==>
      r.value.value < |s| && matches(s[r.value.value])
      && forall j :: 0 <= j < |s| && j != r.value.value ==> !matches(s[j])
    ensures r.Ok? && r.value.None? ==> forall j :: 0 <= j < |s| ==> !matches(s[j])
    ensures r.Err? ==>
      r.error == NonUniqueResult && exists i, j :: 0 <= i < j < |s| && matches(s[i]) && matches(s[j])
  {
    if s == [] then Ok(None)
    else
      match FindUnique(s[1..], matches)
      case Err(e) =>
        ghost var i, j :| 0 <= i < j < |s[1..]| && matches(s[1..][i]) && matches(s[1..][j]);
        assert matches(s[i + 1]) && matches(s[j + 1]);
        Err(e)
      case Ok(None) => if matches(s[0]) then Ok(Some(0)) else Ok(None)
      case Ok(Some(k)) =>
        if matches(s[0]) then
          assert matches(s[k + 1]);
          Err(NonUniqueResult)
        else Ok(Some(k + 1))
  }

  // ---------------------------------------------------------------------
  // java.lang.String helpers

  /** `String.trim` removes every character at or below U+0020 from both ends. */
  predicate IsTrimmable(c: char) { c <= ' ' }

  function TrimStart(s: string): (t: string)
    ensures |t| <= |s| && t == s[|s| - |t|..]
    ensures t != [] ==> !IsTrimmable(t[0])
    ensures forall i :: 0 <= i < |s| - |t| ==> IsTrimmable(s[i])
  {
    if s != [] && IsTrimmable(s[0]) then TrimStart(s[1..]) else s
  }

  function TrimEnd(s: string): (t: string)
    ensures |t| <= |s| && t == s[..|t|]
    ensures t != [] ==> !IsTrimmable(t[|t| - 1])
    ensures forall i :: |t| <= i < |s| ==> IsTrimmable(s[i])
  {
    if s != [] && IsTrimmable(s[|s| - 1]) then TrimEnd(s[..|s| - 1]) else s
  }

  function Trim(s: string): string
  {
    TrimEnd(TrimStart(s))
  }

  /** A comment is blank when trimming leaves nothing. */
  predicate IsBlank(s: string) { Trim(s) == [] }

  /** Trim keeps a contiguous middle part of the text, bounded by non-space characters. */
  lemma TrimShape(s: string)
    ensures exists i, j :: 0 <= i <= j <= |s| && Trim(s) == s[i..j]
    ensures Trim(s) != [] ==> !IsTrimmable(Trim(s)[0]) && !IsTrimmable(Trim(s)[|Trim(s)| - 1])
  {
    var i := TrimSlice(s);
    TrimBounds(s);
  }

  /** Trim is the slice of the text from the first kept character. */
  lemma TrimSlice(s: string) returns (i: nat)
    ensures i + |Trim(s)| <= |s| && Trim(s) == s[i..i + |Trim(s)|]
  {
    var a := TrimStart(s);
    i := |s| - |a|;
    assert a == s[i..];
    PrefixOfSuffix(s, i, |TrimEnd(a)|);
  }

  /** A non-empty trimmed text starts and ends with a non-space character. */
  lemma TrimBounds(s: string)
    ensures Trim(s) != [] ==> !IsTrimmable(Trim(s)[0]) && !IsTrimmable(Trim(s)[|Trim(s)| - 1])
  {
    var a := TrimStart(s);
    var t := TrimEnd(a);
    if t != [] {
      assert t[0] == a[0];
    }
  }

  /** The first `n` characters of the suffix from `i` are the slice from `i` to `i + n`. */
  lemma PrefixOfSuffix(s: string, i: nat, n: nat)
    requires i + n <= |s|
    ensures s[i..][..n] == s[i..i + n]
  {
  }

  /** Trimming twice is trimming once. */
  lemma TrimIdempotent(s: string)
    ensures Trim(Trim(s)) == Trim(s)
  {
    TrimShape(s);
  }

  /** Blank exactly when every character is at or below a space. */
  lemma BlankIffAllTrimmable(s: string)
    ensures IsBlank(s) <==> forall i :: 0 <= i < |s| ==> IsTrimmable(s[i])
  {
    var a := TrimStart(s);
    if IsBlank(s) {
      assert TrimEnd(a) == [];
      assert a == [];
    }
    if forall i :: 0 <= i < |s| ==> IsTrimmable(s[i]) {
      AllTrimmableTrimsAway(s);
    }
  }

  /** Text made only of characters at or below a space trims to nothing from the front. */
  lemma {:induction false} AllTrimmableTrimsAway(s: string)
    requires forall i :: 0 <= i < |s| ==> IsTrimmable(s[i])
    ensures TrimStart(s) == []
  {
    if s != [] {
      AllTrimmableTrimsAway(s[1..]);
    }
  }

  /** ASCII case folding, the part of Java's and SQL's case rules the model keeps. */
  function Lower(c: char): char
  {
    if 'A' <= c <= 'Z' then (c as int + 32) as char else c
  }

  /** `String.equalsIgnoreCase`, and the `...IgnoreCase` derived queries. */
  predicate EqualsIgnoreCase(a: string, b: string)
  {
    |a| == |b| && forall i :: 0 <= i < |a| ==> Lower(a[i]) == Lower(b[i])
  }

  /** Case-insensitive equality is an equivalence, so a duplicate check is symmetric. */
  lemma EqualsIgnoreCaseEquivalence(a: string, b: string, c: string)
    ensures EqualsIgnoreCase(a, a)
    ensures EqualsIgnoreCase(a, b) ==> EqualsIgnoreCase(b, a)
    ensures EqualsIgnoreCase(a, b) && EqualsIgnoreCase(b, c) ==> EqualsIgnoreCase(a, c)
  {
  }
}
