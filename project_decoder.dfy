/** Readable names for Claude project directories
    (app/Sources/CCostLib/ProjectDecoder.swift). A project directory name is
    the project's absolute path with every '/' replaced by '-', such as
    "-Users-brennan-code-openclaw" for /Users/brennan/code/openclaw. */
module ProjectDecoder {
  import opened Wrappers
  import opened Strings

  /** The name without one leading '-'. */
  function DropLeadingDash(encoded: string): (r: string)
    ensures HasPrefix(encoded, "-") ==> "-" + r == encoded
    ensures !HasPrefix(encoded, "-") ==> r == encoded
  {
    if HasPrefix(encoded, "-") then encoded[1..] else encoded
  }

  /** The '-'-separated components, empty ones omitted. */
  function Components(encoded: string): (parts: seq<string>)
    ensures WellFormedParts(parts, '-')
  {
    Split(DropLeadingDash(encoded), '-')
  }

  /** The index of the first part equal to `x`, if any. */
  function IndexOf(parts: seq<string>, x: string): (r: Option<nat>)
    ensures r.None? <==> x !in parts
    ensures r.Some? ==> r.value < |parts| && parts[r.value] == x && x !in parts[..r.value]
    ensures r.Some? ==> forall j :: 0 <= j < r.value ==> parts[j] != x
    decreases |parts|
  {
    if parts == [] then None
    else if parts[0] == x then Some(0)
    else
      match IndexOf(parts[1..], x)
      case None => None
      case Some(i) =>
        assert parts[..i + 1] == [parts[0]] + parts[1..][..i];
        Some(i + 1)
  }

  function Min(a: int, b: int): int {
    if a <= b then a else b
  }

  /** The path under the home directory, written "~/…": the components after
      "Users" and the user name, joined by '/'. A name with no "Users"
      component is returned as it is. */
  function Decode(encoded: string): (r: string)
    ensures "Users" !in Components(encoded) ==> r == encoded
    ensures "Users" in Components(encoded) ==> r == "~" || HasPrefix(r, "~/")
  {
    var parts := Components(encoded);
    match IndexOf(parts, "Users")
    case None => encoded
    case Some(usersIdx) =>
      var afterHome := parts[Min(usersIdx + 2, |parts|)..];
      if afterHome == [] then "~" else "~/" + Join(afterHome, '/')
  }

  /** The last path component of the decoded name. */
  function ProjectName(encoded: string): (r: string)
    ensures '/' !in r
    ensures HasSuffix(Decode(encoded), r)
    ensures '/' !in Decode(encoded) ==> r == Decode(encoded)
    ensures '/' in Decode(encoded) ==>
      var d := Decode(encoded); |r| < |d| && d[|d| - |r| - 1] == '/'
  {
    AfterLast(Decode(encoded), '/')
  }

  // ---------------------------------------------------------------------
  // Names of encoded absolute paths.

  /** The directory name of the absolute path /<comps[0]>/<comps[1]>/…. */
  function EncodePath(comps: seq<string>): string {
    "-" + Join(comps, '-')
  }

  /** The encoding of /Users/<user>/<parts…>. */
  function Encode(user: string, parts: seq<string>): string {
    EncodePath(["Users", user] + parts)
  }

  /** Joining all parts but the last, then the separator and the last part. */
  lemma {:induction false} JoinSnoc(ps: seq<string>, sep: char)
    requires |ps| >= 2
    ensures Join(ps, sep) == Join(ps[..|ps| - 1], sep) + [sep] + ps[|ps| - 1]
    decreases |ps|
  {
    if |ps| > 2 {
      JoinSnoc(ps[1..], sep);
      assert ps[1..][..|ps[1..]| - 1] == ps[..|ps| - 1][1..];
    }
  }

  /** A part free of `sep` stays free of it once joined with another separator. */
  lemma {:induction false} JoinWithout(ps: seq<string>, sep: char, c: char)
    requires c != sep && forall i :: 0 <= i < |ps| ==> c !in ps[i]
    ensures c !in Join(ps, sep)
    decreases |ps|
  {
    if |ps| > 1 {
      JoinWithout(ps[1..], sep, c);
    }
  }

  /** The components of an encoded path are the path's components, when
      none is empty or contains '-'. */
  lemma ComponentsOfEncodePath(comps: seq<string>)
    requires WellFormedParts(comps, '-')
    ensures Components(EncodePath(comps)) == comps
  {
    assert HasPrefix(EncodePath(comps), "-");
    assert DropLeadingDash(EncodePath(comps)) == Join(comps, '-');
    SplitJoin(comps, '-');
  }

  /** The components of an encoded home-directory path are "Users", the user
      name and the parts. */
  lemma ComponentsOfEncode(user: string, parts: seq<string>)
    requires user != [] && '-' !in user
    requires WellFormedParts(parts, '-')
    ensures Components(Encode(user, parts)) == ["Users", user] + parts
  {
    var all := ["Users", user] + parts;
    assert WellFormedParts(all, '-') by {
      forall i | 0 <= i < |all| ensures all[i] != [] && '-' !in all[i] {
        if i >= 2 { assert all[i] == parts[i - 2]; }
      }
    }
    ComponentsOfEncodePath(all);
  }

  /** The first "Users" component follows the components before it when
      none of those is "Users". */
  lemma FirstUsers(pre: seq<string>, rest: seq<string>)
    requires "Users" !in pre
    ensures IndexOf(pre + ["Users"] + rest, "Users") == Some(|pre|)
  {
    var comps := pre + ["Users"] + rest;
    assert comps[|pre|] == "Users";
    assert forall j :: 0 <= j < |pre| ==> comps[j] == pre[j];
  }

  /** Whatever precedes it, the first "Users" component and the one after it
      (the user name) are dropped and the rest is written "~/…", or "~" when
      nothing follows. */
  lemma DecodeUnderUsers(pre: seq<string>, user: string, parts: seq<string>)
    requires "Users" !in pre
    requires WellFormedParts(pre + ["Users", user] + parts, '-')
    ensures Decode(EncodePath(pre + ["Users", user] + parts))
      == if parts == [] then "~" else "~/" + Join(parts, '/')
  {
    var comps := pre + ["Users", user] + parts;
    ComponentsOfEncodePath(comps);
    assert comps == pre + ["Users"] + ([user] + parts);
    FirstUsers(pre, [user] + parts);
    DecodeAt(EncodePath(comps), |pre|);
    assert comps[|pre| + 2..] == parts;
  }

  /** Decoding once the first "Users" component is known to be at index `i`. */
  lemma DecodeAt(encoded: string, i: nat)
    requires IndexOf(Components(encoded), "Users") == Some(i)
    ensures var parts := Components(encoded);
      var afterHome := parts[Min(i + 2, |parts|)..];
      Decode(encoded) == if afterHome == [] then "~" else "~/" + Join(afterHome, '/')
  {
  }

  /** A final "Users" component with no user name after it decodes to "~". */
  lemma DecodeUsersLast(pre: seq<string>)
    requires "Users" !in pre
    requires WellFormedParts(pre + ["Users"], '-')
    ensures Decode(EncodePath(pre + ["Users"])) == "~"
  {
    var comps := pre + ["Users"];
    ComponentsOfEncodePath(comps);
    assert comps == pre + ["Users"] + [];
    FirstUsers(pre, []);
  }

  /** A path with no "Users" component decodes to its encoded name unchanged. */
  lemma DecodeWithoutUsers(comps: seq<string>)
    requires "Users" !in comps && WellFormedParts(comps, '-')
    ensures Decode(EncodePath(comps)) == EncodePath(comps)
  {
    ComponentsOfEncodePath(comps);
  }

  /** /Users/<user>/<parts…> decodes to ~/<parts…>. */
  lemma DecodeHomePath(user: string, parts: seq<string>)
    requires user != [] && '-' !in user
    requires parts != [] && WellFormedParts(parts, '-')
    ensures Decode(Encode(user, parts)) == "~/" + Join(parts, '/')
    ensures '-' !in Decode(Encode(user, parts))
  {
    ComponentsOfEncode(user, parts);
    JoinWithout(parts, '/', '-');
    assert [] + ["Users", user] + parts == ["Users", user] + parts;
    DecodeUnderUsers([], user, parts);
  }

  /** The home directory itself decodes to "~". */
  lemma DecodeHome(user: string)
    requires user != [] && '-' !in user
    ensures Decode(Encode(user, [])) == "~"
  {
    ComponentsOfEncode(user, []);
    assert IndexOf(["Users", user] + [], "Users") == Some(0);
  }

  /** The project name of /Users/<user>/<parts…> is its last part, provided no
      part contains '/'. */
  lemma ProjectNameOfHomePath(user: string, parts: seq<string>)
    requires user != [] && '-' !in user
    requires parts != [] && WellFormedParts(parts, '-') && WellFormedParts(parts, '/')
    ensures ProjectName(Encode(user, parts)) == parts[|parts| - 1]
  {
    DecodeHomePath(user, parts);
    var last := parts[|parts| - 1];
    if |parts| == 1 {
      assert "~/" + Join(parts, '/') == "~" + ['/'] + last;
      AfterLastAppend("~", '/', last);
    } else {
      JoinSnoc(parts, '/');
      var front := "~/" + Join(parts[..|parts| - 1], '/');
      assert "~/" + Join(parts, '/') == front + ['/'] + last;
      AfterLastAppend(front, '/', last);
    }
  }

  /** Joining four parts puts the separator between each two. */
  lemma JoinFour(a: string, b: string, c: string, d: string, sep: char)
    ensures Join([a, b, c, d], sep) == a + [sep] + b + [sep] + c + [sep] + d
  {
    JoinCons(c, [d], sep);
    assert [c] + [d] == [c, d];
    JoinCons(b, [c, d], sep);
    assert [b] + [c, d] == [b, c, d];
    JoinCons(a, [b, c, d], sep);
    assert [a] + [b, c, d] == [a, b, c, d];
  }

  lemma EncodeExample(user: string, a: string, b: string)
    requires user == "brennan" && a == "code" && b == "openclaw"
    ensures Encode(user, [a, b]) == "-Users-brennan-code-openclaw"
  {
    assert ["Users", user] + [a, b] == ["Users", user, a, b];
    JoinFour("Users", user, a, b, '-');
  }

  /** The documented example of decode. */
  lemma DocumentedDecode(encoded: string)
    requires encoded == "-Users-brennan-code-openclaw"
    ensures Decode(encoded) == "~/code/openclaw"
  {
    var parts := ["code", "openclaw"];
    EncodeExample("brennan", "code", "openclaw");
    assert WellFormedParts(parts, '-');
    DecodeHomePath("brennan", parts);
    JoinSlashExample();
  }

  lemma JoinSlashExample()
    ensures "~/" + Join(["code", "openclaw"], '/') == "~/code/openclaw"
  {
    JoinCons("code", ["openclaw"], '/');
    assert ["code"] + ["openclaw"] == ["code", "openclaw"];
  }

  /** The documented example of projectName. */
  lemma DocumentedProjectName(encoded: string)
    requires encoded == "-Users-brennan-code-openclaw"
    ensures ProjectName(encoded) == "openclaw"
  {
    var parts := ["code", "openclaw"];
    EncodeExample("brennan", "code", "openclaw");
    assert WellFormedParts(parts, '-') && WellFormedParts(parts, '/');
    ProjectNameOfHomePath("brennan", parts);
  }
}
