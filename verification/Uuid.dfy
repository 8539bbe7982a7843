/** `uuid.UUID(text)`, by which the audit service reads a transaction id
    (backend/app/services/audit_service.py:51). */
module Uuid {
  /** `s.replace(t, "")` */
  function RemoveAll(s: string, t: string): (r: string)
    requires t != ""
    ensures |r| <= |s|
  {
    if |s| < |t| then s
    else if s[..|t|] == t then RemoveAll(s[|t|..], t)
    else [s[0]] + RemoveAll(s[1..], t)
  }

  predicate IsBrace(c: char) {
    c == '{' || c == '}'
  }

  function StripLeft(s: string): (r: string)
    ensures |r| <= |s|
  {
    if s != "" && IsBrace(s[0]) then StripLeft(s[1..]) else s
  }

  function StripRight(s: string): (r: string)
    ensures |r| <= |s|
  {
    if s != "" && IsBrace(s[|s| - 1]) then StripRight(s[..|s| - 1]) else s
  }

  /** What is left of the text to be read in base 16. */
  function Digits(s: string): (r: string)
    ensures |r| <= |s|
  {
    RemoveAll(StripRight(StripLeft(RemoveAll(RemoveAll(s, "urn:"), "uuid:"))), "-")
  }

  /** `base16` says of 32 characters whether `int(_, 16)` accepts them. */
  predicate Parses(s: string, base16: string -> bool) {
    |Digits(s)| == 32 && base16(Digits(s))
  }

  lemma {:induction false} RemoveHyphen(a: string, b: string)
    ensures RemoveAll(a + "-" + b, "-") == RemoveAll(a + b, "-")
  {
    var s := a + "-" + b;
    if a == "" {
      assert s == "-" + b && s[..1] == "-" && s[1..] == b && a + b == b;
    } else {
      assert s[1..] == a[1..] + "-" + b && (a + b)[1..] == a[1..] + b;
      assert s[..1] == (a + b)[..1] == [a[0]];
      RemoveHyphen(a[1..], b);
    }
  }

  // ----- The written forms of a uuid

  /** Hexadecimal digits and hyphens, say. */
  predicate Bare(s: string) {
    forall i :: 0 <= i < |s| ==> s[i] != 'u' && !IsBrace(s[i])
  }

  predicate OccursAt(s: string, t: string, i: nat) {
    i + |t| <= |s| && s[i..i + |t|] == t
  }

  lemma OccurrenceAt(s: string, t: string, i: nat)
    ensures OccursAt(s, t, i) ==> forall k :: i <= k < i + |t| ==> s[k] == t[k - i]
  {
    if OccursAt(s, t, i) {
      assert forall k :: 0 <= k < |t| ==> s[i..i + |t|][k] == t[k];
    }
  }

  lemma {:induction false} NothingToRemove(s: string, t: string)
    requires t != "" && forall i: nat :: !OccursAt(s, t, i)
    ensures RemoveAll(s, t) == s
  {
    if |s| >= |t| {
      assert !OccursAt(s, t, 0) && s[0..|t|] == s[..|t|];
      forall i: nat ensures !OccursAt(s[1..], t, i) {
        assert !OccursAt(s, t, i + 1);
        assert i + |t| <= |s[1..]| ==> s[1..][i..i + |t|] == s[i + 1..i + 1 + |t|];
      }
      NothingToRemove(s[1..], t);
    }
  }

  lemma NothingToRemoveBut(s: string, t: string)
    requires t != "" && t[0] == 'u' && forall i :: 0 <= i < |s| ==> s[i] != 'u'
    ensures RemoveAll(s, t) == s
  {
    forall i: nat ensures !OccursAt(s, t, i) {
      OccurrenceAt(s, t, i);
    }
    NothingToRemove(s, t);
  }

  lemma FrontIsRemoved(s: string, t: string)
    requires t != ""
    ensures RemoveAll(t + s, t) == RemoveAll(s, t)
  {
    assert (t + s)[..|t|] == t && (t + s)[|t|..] == s;
  }

  lemma UrnBegins(text: string, i: nat)
    ensures OccursAt(text, "urn:", i) ==> i + 4 <= |text| && text[i] == 'u' && text[i + 1] == 'r'
  {
    OccurrenceAt(text, "urn:", i);
  }

  lemma UrnAfterUuid(s: string)
    requires Bare(s)
    ensures RemoveAll("uuid:" + s, "urn:") == "uuid:" + s
  {
    var text := "uuid:" + s;
    forall i: nat ensures !OccursAt(text, "urn:", i) {
      UrnBegins(text, i);
      assert 5 <= i < |text| ==> text[i] == s[i - 5];
    }
    NothingToRemove(text, "urn:");
  }

  lemma BracesAreStripped(s: string)
    requires Bare(s)
    ensures StripRight(StripLeft("{" + s + "}")) == StripRight(StripLeft(s)) == s
  {
    var text := "{" + s + "}";
    assert text[1..] == s + "}";
    if s == "" {
      assert StripLeft(s + "}") == StripLeft("");
    } else {
      assert StripLeft(s + "}") == s + "}";
      assert (s + "}")[..|s|] == s;
    }
  }

  lemma BareDigits(s: string)
    requires Bare(s)
    ensures Digits(s) == RemoveAll(s, "-")
  {
    NothingToRemoveBut(s, "urn:");
    NothingToRemoveBut(s, "uuid:");
    BracesAreStripped(s);
  }

  /** Hyphens between the characters of a bare text do not count, and without them it parses
      iff it is 32 characters that the conversion accepts. */
  lemma HyphensDoNotCount(a: string, b: string, base16: string -> bool)
    requires Bare(a + b)
    ensures Parses(a + "-" + b, base16) <==> Parses(a + b, base16)
    ensures '-' !in a + b ==> (Parses(a + b, base16) <==> |a + b| == 32 && base16(a + b))
  {
    assert Bare(a + "-" + b) by {
      forall i | 0 <= i < |a + "-" + b| ensures (a + "-" + b)[i] != 'u' && !IsBrace((a + "-" + b)[i]) {
        assert i > |a| ==> (a + "-" + b)[i] == (a + b)[i - 1];
        assert i < |a| ==> (a + "-" + b)[i] == (a + b)[i];
      }
    }
    BareDigits(a + b);
    BareDigits(a + "-" + b);
    RemoveHyphen(a, b);
    forall i: nat ensures '-' !in a + b ==> !OccursAt(a + b, "-", i) {
      OccurrenceAt(a + b, "-", i);
    }
    if '-' !in a + b {
      NothingToRemove(a + b, "-");
    }
  }

  /** The plain form, the form in braces and the urn form are read alike. */
  lemma WrittenForms(s: string, base16: string -> bool)
    requires Bare(s)
    ensures Parses("{" + s + "}", base16) <==> Parses(s, base16)
    ensures Parses("urn:uuid:" + s, base16) <==> Parses(s, base16)
  {
    NothingToRemoveBut(s, "urn:");
    NothingToRemoveBut(s, "uuid:");
    NothingToRemoveBut("{" + s + "}", "urn:");
    NothingToRemoveBut("{" + s + "}", "uuid:");
    BracesAreStripped(s);
    assert "urn:uuid:" + s == "urn:" + ("uuid:" + s);
    FrontIsRemoved("uuid:" + s, "urn:");
    UrnAfterUuid(s);
    FrontIsRemoved(s, "uuid:");
  }
}
