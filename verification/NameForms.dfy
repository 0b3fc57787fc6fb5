/** What the normal form of a name, and of a program's path, is. */
module NameForms {
  import opened Common
  import opened Rules

  // ------------------------------------------------------------------ labels

  function Joined(labels: seq<string>): string
    requires labels != []
  {
    if |labels| == 1 then labels[0] else labels[0] + "." + Joined(labels[1..])
  }

  predicate NoDot(s: string) { forall i :: 0 <= i < |s| ==> s[i] != '.' }

  /** Splitting at the dots loses nothing: joining the labels gives the name back. */
  lemma {:induction false} LabelsJoin(s: string)
    ensures Joined(Labels(s)) == s && forall l :: l in Labels(s) ==> NoDot(l)
  {
    if s != [] {
      LabelsJoin(s[1..]);
      var rest := Labels(s[1..]);
      assert s == [s[0]] + s[1..];
      if s[0] == '.' {
        assert Labels(s)[1..] == rest;
      } else {
        assert Labels(s)[1..] == rest[1..];
        assert NoDot(rest[0]) by { assert rest[0] in rest; }
        if |rest| > 1 {
          assert [s[0]] + (rest[0] + "." + Joined(rest[1..])) == ([s[0]] + rest[0]) + "." + Joined(rest[1..]);
        }
      }
    }
  }

  /** And splitting what was joined from labels without dots gives those labels back. */
  lemma {:induction false} JoinedSplits(labels: seq<string>)
    requires labels != [] && forall l :: l in labels ==> NoDot(l)
    ensures Labels(Joined(labels)) == labels
  {
    assert NoDot(labels[0]) by { assert labels[0] in labels; }
    if |labels| == 1 {
      OnlyLabel(labels[0]);
    } else {
      JoinedSplits(labels[1..]);
      FirstLabel(labels[0], Joined(labels[1..]));
      assert labels == [labels[0]] + labels[1..];
    }
  }

  lemma {:induction false} OnlyLabel(l: string)
    requires NoDot(l)
    ensures Labels(l) == [l]
  {
    if l != [] {
      OnlyLabel(l[1..]);
      assert l == [l[0]] + l[1..];
    }
  }

  lemma {:induction false} FirstLabel(l: string, rest: string)
    requires NoDot(l)
    ensures Labels(l + "." + rest) == [l] + Labels(rest)
  {
    var s := l + "." + rest;
    if l == [] {
      assert s[1..] == rest;
    } else {
      FirstLabel(l[1..], rest);
      assert s[1..] == l[1..] + "." + rest;
      assert l == [l[0]] + l[1..];
    }
  }

  // ------------------------------------------------------------------ names

  /** 1 to 63 letters (lower case), digits, hyphens and underscores, with no hyphen at either end. */
  predicate IsLabel(l: string) {
    && 1 <= |l| <= 63 && l[0] != '-' && l[|l| - 1] != '-'
    && forall i :: 0 <= i < |l| ==> 'a' <= l[i] <= 'z' || '0' <= l[i] <= '9' || l[i] == '-' || l[i] == '_'
  }

  /** At most 253 characters, labels joined by dots. */
  ghost predicate IsName(n: string) {
    && |n| <= 253
    && exists labels: seq<string> :: labels != [] && (forall l :: l in labels ==> IsLabel(l)) && n == Joined(labels)
  }

  lemma GoodMeansLabel(l: string)
    ensures GoodLabel(l) <==> IsLabel(l)
  {
    assert forall c: char :: LabelChar(c) <==> 'a' <= c <= 'z' || '0' <= c <= '9' || c == '-' || c == '_';
  }

  lemma GoodMeansName(n: string)
    ensures n != [] && |n| <= 253 && GoodName(n) <==> IsName(n)
  {
    forall l ensures GoodLabel(l) <==> IsLabel(l) { GoodMeansLabel(l); }
    if n != [] && |n| <= 253 && GoodName(n) {
      LabelsJoin(n);
      assert n == Joined(Labels(n));
    }
    if IsName(n) {
      var labels :| labels != [] && (forall l :: l in labels ==> IsLabel(l)) && n == Joined(labels);
      JoinedSplits(labels);
      assert IsLabel(labels[0]) by { assert labels[0] in labels; }
    }
  }

  lemma {:induction false} NameIsAscii(s: string)
    requires GoodName(Lower(s))
    ensures IsAscii(s)
  {
    LabelsJoin(Lower(s));
    CharsOfLabels(Labels(Lower(s)));
    forall i | 0 <= i < |s| ensures s[i] as int < 128 {
      assert Lower(s)[i] == '.' || LabelChar(Lower(s)[i]);
    }
  }

  lemma {:induction false} CharsOfLabels(labels: seq<string>)
    requires labels != [] && forall l :: l in labels ==> GoodLabel(l)
    ensures forall i :: 0 <= i < |Joined(labels)| ==> Joined(labels)[i] == '.' || LabelChar(Joined(labels)[i])
  {
    assert GoodLabel(labels[0]) by { assert labels[0] in labels; }
    if |labels| > 1 {
      CharsOfLabels(labels[1..]);
    }
  }

  /** A name's normal form is the well-formed name that it is but for case and a trailing dot; it has none
      exactly when there is no such name. */
  lemma NormalFormExactly(name: string, n: string)
    ensures NormalizeDomain(name) == Some(n) <==> IsName(n) && (Lower(name) == n || Lower(name) == n + ".")
  {
    GoodMeansName(n);
    if NormalizeDomain(name) == Some(n) {
      if |name| > 0 && name[|name| - 1] == '.' {
        assert Lower(name) == Lower(name[..|name| - 1]) + ".";
      }
    }
    if IsName(n) && (Lower(name) == n || Lower(name) == n + ".") {
      GoodNameEndsInALetter(n);
      if Lower(name) == n {
        NormalAsItIs(name, n);
      } else {
        assert Lower(name)[|name| - 1] == '.';
        assert name[|name| - 1] == '.';
        var bare := name[..|name| - 1];
        assert Lower(bare) == Lower(name)[..|name| - 1] == n;
        NameIsAscii(bare);
      }
    }
  }

  lemma NormalAsItIs(name: string, n: string)
    requires Lower(name) == n && n != [] && |n| <= 253 && GoodName(n) && n[|n| - 1] != '.'
    ensures NormalizeDomain(name) == Some(n)
  {
    assert LowerChar(name[|name| - 1]) == n[|n| - 1];
    NameIsAscii(name);
  }

  // ------------------------------------------------------------------ program paths

  function Slashed(path: string): string {
    seq(|path|, i requires 0 <= i < |path| => if path[i] == '/' then '\\' else path[i])
  }

  const LONG_PATH := "\\\\?\\"

  lemma {:induction false} Trimmed(s: string)
    ensures var core := TrimBackslashes(s);
            && |core| <= |s| && core == s[..|core|]
            && (core == [] || core[|core| - 1] != '\\')
            && forall i :: |core| <= i < |s| ==> s[i] == '\\'
  {
    if s != [] && s[|s| - 1] == '\\' {
      Trimmed(s[..|s| - 1]);
    } else {
      assert s[..|s|] == s;
    }
  }

  /** A path's normal form, in lower case: with its slashes turned, what lies between the long-path prefix (if
      the path begins with it) and the backslashes at its end (all of them). */
  lemma PathFormExactly(path: string) returns (start: nat, end: nat)
    ensures start == if |path| >= 4 && Slashed(path)[..4] == LONG_PATH then 4 else 0
    ensures start <= end <= |path| && NormalizeApplication(path) == Lower(Slashed(path)[start..end])
    ensures end == start || Slashed(path)[end - 1] != '\\'
    ensures forall i :: end <= i < |path| ==> Slashed(path)[i] == '\\'
  {
    var slashed := Slashed(path);
    start := if |path| >= 4 && slashed[..4] == LONG_PATH then 4 else 0;
    var bare := slashed[start..];
    Trimmed(bare);
    end := start + |TrimBackslashes(bare)|;
    assert slashed[start..end] == bare[..end - start];
    assert slashed[0..] == slashed;
    forall i | end <= i < |path| ensures slashed[i] == '\\' {
      assert slashed[i] == bare[i - start];
    }
  }
}
