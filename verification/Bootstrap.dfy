/**
 The bootstrap data of a host: the template marker is dropped, then the credential and the version are
 filled in by two replacements in a row.
 */
module Bootstrap {

  const MARKER := "## template: jinja"
  const CREDENTIAL := "UCLOUD_CREDENTIAL"
  const VERSION := "KUBERNETES_VERSION"

  predicate StartsWith(s: string, p: string) {
    |p| <= |s| && s[..|p|] == p
  }

  predicate Contains(s: string, p: string) {
    exists i :: 0 <= i <= |s| && StartsWith(s[i..], p)
  }

  /** Leftmost matches that do not overlap, each replaced. */
  function ReplaceAll(s: string, mark: string, with: string): string
    requires mark != ""
  {
    if s == "" then ""
    else if StartsWith(s, mark) then with + ReplaceAll(s[|mark|..], mark, with)
    else [s[0]] + ReplaceAll(s[1..], mark, with)
  }

  function Render(data: string, credential: string, version: string): string {
    ReplaceAll(ReplaceAll(ReplaceAll(data, MARKER, ""), CREDENTIAL, credential), VERSION, version)
  }

  /** Both placeholders filled in one pass: what is inserted is never looked at again. */
  function Fill(s: string, credential: string, version: string): string {
    if s == "" then ""
    else if StartsWith(s, CREDENTIAL) then credential + Fill(s[|CREDENTIAL|..], credential, version)
    else if StartsWith(s, VERSION) then version + Fill(s[|VERSION|..], credential, version)
    else [s[0]] + Fill(s[1..], credential, version)
  }

  /** A character of neither placeholder. */
  predicate Outside(c: char) {
    c !in CREDENTIAL && c !in VERSION
  }

  /** Text that cannot become part of a placeholder: it holds none, and neither of its ends fits in one. */
  predicate Inert(v: string) {
    v != "" && Outside(v[0]) && Outside(v[|v| - 1]) && !Contains(v, CREDENTIAL) && !Contains(v, VERSION)
  }

  // ----- Inserted text is left alone -----

  /** A match that starts inside `v` lies in `v` or takes its last character. */
  lemma MatchFromInside(v: string, rest: string, p: string, i: nat)
    requires i < |v| && StartsWith((v + rest)[i..], p)
    ensures StartsWith(v[i..], p) || v[|v| - 1] in p
  {
    var s := v + rest;
    if i + |p| <= |v| {
    } else {
      assert s[i..][|v| - 1 - i] == v[|v| - 1];
    }
  }

  /** A placeholder does not start inside inert text. */
  lemma NoneStartsInside(v: string, rest: string, p: string, i: nat)
    requires Inert(v) && (p == CREDENTIAL || p == VERSION) && i < |v|
    ensures !StartsWith((v + rest)[i..], p)
  {
    if StartsWith((v + rest)[i..], p) {
      MatchFromInside(v, rest, p, i);
    }
  }

  /** So replacing passes over it. */
  lemma {:induction false} PassesOver(v: string, rest: string, p: string, with: string, i: nat)
    requires Inert(v) && (p == CREDENTIAL || p == VERSION) && i <= |v|
    ensures ReplaceAll((v + rest)[i..], p, with) == v[i..] + ReplaceAll(rest, p, with)
    decreases |v| - i
  {
    var s := v + rest;
    if i == |v| {
    } else {
      NoneStartsInside(v, rest, p, i);
      PassesOver(v, rest, p, with, i + 1);
    }
  }

  /** Replacing the credential brings no new text of the version placeholder to the front. */
  lemma {:induction false} FrontUnchanged(s: string, credential: string, w: string)
    requires Inert(credential) && forall c :: c in w ==> c in VERSION
    requires StartsWith(ReplaceAll(s, CREDENTIAL, credential), w)
    ensures StartsWith(s, w)
  {
    if w != "" {
      assert w[0] in w;
      var r := ReplaceAll(s, CREDENTIAL, credential);
      if StartsWith(s, CREDENTIAL) {
      } else {
        assert r[1..] == ReplaceAll(s[1..], CREDENTIAL, credential);
        FrontUnchanged(s[1..], credential, w[1..]);
      }
    }
  }

  /** The placeholders do not overlap: no credential placeholder starts inside a version placeholder. */
  lemma NoOverlap(s: string, i: nat)
    requires StartsWith(s, VERSION) && i < |VERSION|
    ensures !StartsWith(s[i..], CREDENTIAL)
  {
    assert s[i..][0] == s[..|VERSION|][i] == VERSION[i];
    if i == 1 {
      assert s[1..][1] == s[..|VERSION|][2] == 'B';
    }
  }

  lemma {:induction false} VersionKept(s: string, credential: string, i: nat)
    requires StartsWith(s, VERSION) && i <= |VERSION|
    ensures ReplaceAll(s[i..], CREDENTIAL, credential) == VERSION[i..] + ReplaceAll(s[|VERSION|..], CREDENTIAL, credential)
    decreases |VERSION| - i
  {
    if i < |VERSION| {
      NoOverlap(s, i);
      VersionKept(s, credential, i + 1);
      assert s[i..][1..] == s[i + 1..] && s[i..][0] == s[..|VERSION|][i];
    }
  }

  lemma ReplaceHead(p: string, rest: string, with: string)
    requires p != ""
    ensures ReplaceAll(p + rest, p, with) == with + ReplaceAll(rest, p, with)
  {
  }

  /** Two replacements in a row are one pass over the text. */
  lemma {:induction false} SequentialIsSimultaneous(s: string, credential: string, version: string)
    requires Inert(credential)
    ensures ReplaceAll(ReplaceAll(s, CREDENTIAL, credential), VERSION, version) == Fill(s, credential, version)
    decreases |s|
  {
    if s == "" {
    } else if StartsWith(s, CREDENTIAL) {
      var rest := ReplaceAll(s[|CREDENTIAL|..], CREDENTIAL, credential);
      PassesOver(credential, rest, VERSION, version, 0);
      SequentialIsSimultaneous(s[|CREDENTIAL|..], credential, version);
    } else if StartsWith(s, VERSION) {
      var rest := ReplaceAll(s[|VERSION|..], CREDENTIAL, credential);
      VersionKept(s, credential, 0);
      SequentialIsSimultaneous(s[|VERSION|..], credential, version);
    } else {
      var rest := ReplaceAll(s[1..], CREDENTIAL, credential);
      if StartsWith([s[0]] + rest, VERSION) {
        FrontUnchanged(s, credential, VERSION);
      }
      SequentialIsSimultaneous(s[1..], credential, version);
    }
  }

  // ----- No placeholder is left -----

  /** Where a placeholder stood, the filled text starts outside both alphabets. */
  lemma FilledHead(s: string, credential: string, version: string)
    requires Inert(credential) && Inert(version) && (StartsWith(s, CREDENTIAL) || StartsWith(s, VERSION))
    ensures Fill(s, credential, version) != "" && Outside(Fill(s, credential, version)[0])
  {
  }

  /** Filling brings no new placeholder text to the front. */
  lemma {:induction false} FillFront(s: string, credential: string, version: string, w: string)
    requires Inert(credential) && Inert(version) && forall c :: c in w ==> !Outside(c)
    requires StartsWith(Fill(s, credential, version), w)
    ensures StartsWith(s, w)
    decreases |s|
  {
    if w != "" {
      var r := Fill(s, credential, version);
      if StartsWith(s, CREDENTIAL) || StartsWith(s, VERSION) {
        FilledHead(s, credential, version);
      } else {
        assert r[..|w|][1..] == r[1..][..|w| - 1];
        FillFront(s[1..], credential, version, w[1..]);
      }
    }
  }

  lemma InertThenClean(v: string, rest: string, p: string)
    requires Inert(v) && (p == CREDENTIAL || p == VERSION) && !Contains(rest, p)
    ensures !Contains(v + rest, p)
  {
    var s := v + rest;
    forall i | 0 <= i <= |s| ensures !StartsWith(s[i..], p) {
      if i < |v| {
        NoneStartsInside(v, rest, p, i);
      } else {
        assert s[i..] == rest[i - |v|..];
      }
    }
  }

  lemma {:induction false} FillLeavesNone(s: string, credential: string, version: string, p: string)
    requires Inert(credential) && Inert(version) && (p == CREDENTIAL || p == VERSION)
    ensures !Contains(Fill(s, credential, version), p)
    decreases |s|
  {
    if s == "" {
    } else if StartsWith(s, CREDENTIAL) {
      FillLeavesNone(s[|CREDENTIAL|..], credential, version, p);
      InertThenClean(credential, Fill(s[|CREDENTIAL|..], credential, version), p);
    } else if StartsWith(s, VERSION) {
      FillLeavesNone(s[|VERSION|..], credential, version, p);
      InertThenClean(version, Fill(s[|VERSION|..], credential, version), p);
    } else {
      var rest := Fill(s[1..], credential, version);
      FillLeavesNone(s[1..], credential, version, p);
      var r := [s[0]] + rest;
      forall i | 0 <= i <= |r| ensures !StartsWith(r[i..], p) {
        if i == 0 {
          if StartsWith(r, p) {
            FillFront(s, credential, version, p);
          }
        } else {
          assert r[i..] == rest[i - 1..];
        }
      }
    }
  }

  /**
   With inert values, rendering fills each placeholder of the unmarked text once, in place, and nothing
   else: what it inserts is not touched again, and neither placeholder is left.
   */
  lemma RenderFills(data: string, credential: string, version: string)
    requires Inert(credential) && Inert(version)
    ensures Render(data, credential, version) == Fill(ReplaceAll(data, MARKER, ""), credential, version)
    ensures !Contains(Render(data, credential, version), CREDENTIAL)
    ensures !Contains(Render(data, credential, version), VERSION)
  {
    var t := ReplaceAll(data, MARKER, "");
    SequentialIsSimultaneous(t, credential, version);
    FillLeavesNone(t, credential, version, CREDENTIAL);
    FillLeavesNone(t, credential, version, VERSION);
  }

  // ----- The ends matter -----

  lemma {:induction false} TooShort(s: string, mark: string, with: string)
    requires |s| < |mark|
    ensures ReplaceAll(s, mark, with) == s
  {
    if s != "" {
      TooShort(s[1..], mark, with);
    }
  }

  /** A credential that holds no placeholder but ends in letters of one is damaged by the second replacement. */
  lemma EndsMatter(version: string)
    ensures
      var credential := "xKUBERNETES";
      var data := CREDENTIAL + "_VERSION";
      && Render(data, credential, version) == "x" + version
      && Fill(data, credential, version) == "x" + VERSION
  {
    NoMarker();
    hide ReplaceAll;
    var credential := "xKUBERNETES";
    var tail := "_VERSION";
    assert credential + tail == "x" + VERSION;
    assert (CREDENTIAL + tail)[..|CREDENTIAL|] == CREDENTIAL && (CREDENTIAL + tail)[|CREDENTIAL|..] == tail;
    ReplaceHead(CREDENTIAL, tail, credential);
    TooShort(tail, CREDENTIAL, credential);
    AfterX(version);
    FillTail(tail, credential, version);
  }

  lemma NoMarker()
    ensures ReplaceAll(CREDENTIAL + "_VERSION", MARKER, "") == CREDENTIAL + "_VERSION"
  {
    HashFree(CREDENTIAL + "_VERSION");
  }

  lemma {:induction false} HashFree(s: string)
    requires '#' !in s
    ensures ReplaceAll(s, MARKER, "") == s
  {
    if s != "" {
      assert MARKER[0] == '#' && s[0] in s;
      HashFree(s[1..]);
    }
  }

  lemma AfterX(version: string)
    ensures ReplaceAll("x" + VERSION, VERSION, version) == "x" + version
  {
    var once := "x" + VERSION;
    assert once[0] == 'x' && once[1..] == VERSION && VERSION + "" == VERSION;
    assert !StartsWith(once, VERSION) by { assert VERSION[0] == 'K'; }
    ReplaceHead(VERSION, "", version);
    assert ReplaceAll("", VERSION, version) == "" && version + "" == version;
  }

  lemma {:induction false} FillTail(s: string, credential: string, version: string)
    requires |s| < |CREDENTIAL|
    ensures Fill(s, credential, version) == s
  {
    if s != "" {
      FillTail(s[1..], credential, version);
    }
  }
}
