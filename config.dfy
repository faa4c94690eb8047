/**
 * The allow-list: `ALLOWED_EMAILS` split on commas, each segment trimmed and lowercased,
 * empty entries dropped; and the membership test used by every access decision.
 */
module Config {
  import opened Wrappers
  import opened Text

  /** `email.trim().toLowerCase()` */
  function NormaliseEntry(segment: string): (e: string)
    ensures IsTrimmed(e) && Lower(e) == e
  {
    var t := Trim(segment);
    LowerKeepsWhitespace(t);
    LowerIdempotent(t);
    Lower(t)
  }

  /** `.map(f)` */
  function MapAll(f: string -> string, xs: seq<string>): (r: seq<string>)
    ensures |r| == |xs|
    ensures forall i :: 0 <= i < |xs| ==> r[i] == f(xs[i])
  {
    seq(|xs|, i requires 0 <= i < |xs| => f(xs[i]))
  }

  /** Mapping a concatenation maps each part. */
  lemma MapAllAppend(f: string -> string, a: seq<string>, b: seq<string>)
    ensures MapAll(f, a + b) == MapAll(f, a) + MapAll(f, b)
  {
    var l, r := MapAll(f, a + b), MapAll(f, a) + MapAll(f, b);
    forall i | 0 <= i < |l| ensures l[i] == r[i] {
      if i < |a| {
        assert (a + b)[i] == a[i];
      } else {
        assert (a + b)[i] == b[i - |a|];
      }
    }
  }

  /** `.map((email) => email.trim().toLowerCase())` over the segments. */
  function NormaliseAll(segments: seq<string>): (r: seq<string>)
    ensures |r| == |segments|
    ensures forall i :: 0 <= i < |segments| ==> r[i] == NormaliseEntry(segments[i])
  {
    MapAll(NormaliseEntry, segments)
  }

  /** `.filter(Boolean)`: the non-empty strings, in order. */
  function NonEmpty(xs: seq<string>): (r: seq<string>)
    ensures forall i :: 0 <= i < |r| ==> r[i] != "" && r[i] in xs
    ensures forall x :: x in xs && x != "" ==> x in r
  {
    if xs == [] then [] else (if xs[0] == "" then [] else [xs[0]]) + NonEmpty(xs[1..])
  }

  /** Filtering a concatenation filters each part. */
  lemma {:induction false} NonEmptyAppend(a: seq<string>, b: seq<string>)
    ensures NonEmpty(a + b) == NonEmpty(a) + NonEmpty(b)
  {
    if a != [] {
      assert (a + b)[1..] == a[1..] + b;
      NonEmptyAppend(a[1..], b);
    } else {
      assert a + b == b;
    }
  }

  /** `allowedEmails`, computed from the raw configuration string. */
  function AllowedEmails(raw: string): (entries: seq<string>)
    ensures forall i :: 0 <= i < |entries| ==>
      entries[i] != "" && IsTrimmed(entries[i]) && Lower(entries[i]) == entries[i]
  {
    NonEmpty(NormaliseAll(Split(raw, ',')))
  }

  /** The entries are exactly the non-empty normalised segments. */
  lemma AllowedEmailsMembers(raw: string, e: string)
    ensures e in AllowedEmails(raw) <==> e != "" && e in NormaliseAll(Split(raw, ','))
  {
  }

  lemma NonEmptySingleton(x: string)
    ensures NonEmpty([x]) == if x == "" then [] else [x]
  {
    assert [x][1..] == [];
  }

  /** One segment contributes its normalisation, or nothing when that is empty. */
  lemma {:induction false} AllowedEmailsOfSegment(segment: string)
    requires ',' !in segment
    ensures AllowedEmails(segment) == if NormaliseEntry(segment) == "" then [] else [NormaliseEntry(segment)]
  {
    SplitWithoutSeparator(segment, ',');
    NormaliseSingleton(segment);
    NonEmptySingleton(NormaliseEntry(segment));
  }

  lemma NormaliseSingleton(segment: string)
    ensures NormaliseAll([segment]) == [NormaliseEntry(segment)]
  {
    var r := NormaliseAll([segment]);
    assert [segment][0] == segment;
    assert r[0] == NormaliseEntry(segment);
    assert |r| == 1;
  }

  /** Segments keep their order: the list of `a,b` is the list of `a` followed by that of `b`. */
  lemma {:induction false} AllowedEmailsAppend(a: string, b: string)
    requires ',' !in a
    ensures AllowedEmails(a + "," + b) == AllowedEmails(a) + AllowedEmails(b)
  {
    assert a + "," + b == a + [','] + b;
    SplitAround(a, b, ',');
    var sa, sb := Split(a, ','), Split(b, ',');
    NormaliseAllAppend(sa, sb);
    NonEmptyAppend(NormaliseAll(sa), NormaliseAll(sb));
  }

  lemma NormaliseAllAppend(a: seq<string>, b: seq<string>)
    ensures NormaliseAll(a + b) == NormaliseAll(a) + NormaliseAll(b)
  {
    MapAllAppend(NormaliseEntry, a, b);
  }

  /** `isEmailAllowed(email)` against the entries `allowed`. */
  function IsEmailAllowed(allowed: seq<string>, email: Option<string>): (ok: bool)
    ensures email.None? || email == Some("") ==> !ok
    ensures ok <==> email.Some? && email.value != "" && Lower(email.value) in allowed
  {
    if email.None? || email.value == "" then false else Lower(email.value) in allowed
  }

  /** The test is case-insensitive: an email and its lowercase form get the same answer. */
  lemma IsEmailAllowedIgnoresCase(allowed: seq<string>, e: string)
    ensures IsEmailAllowed(allowed, Some(e)) == IsEmailAllowed(allowed, Some(Lower(e)))
  {
    LowerIdempotent(e);
  }

  /** The test does not trim, so an email with surrounding whitespace never matches an entry. */
  lemma PaddedEmailRefused(raw: string, e: string)
    requires e != [] && (IsWhitespace(e[0]) || IsWhitespace(e[|e| - 1]))
    ensures !IsEmailAllowed(AllowedEmails(raw), Some(e))
  {
    LowerKeepsWhitespace(e);
    var entries := AllowedEmails(raw);
    forall i | 0 <= i < |entries| ensures entries[i] != Lower(e) {
      assert IsTrimmed(entries[i]);
    }
  }
}
