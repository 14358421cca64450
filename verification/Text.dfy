/** The string functions of Go's standard library that the modules below rely on. */
module Text {

  /** unicode.IsSpace: the characters strings.TrimSpace removes. */
  predicate IsSpace(c: char) {
    || '\t' <= c <= '\r' || c == ' ' || c == '\U{0085}' || c == '\U{00A0}' || c == '\U{1680}'
    || '\U{2000}' <= c <= '\U{200A}'
    || c == '\U{2028}' || c == '\U{2029}' || c == '\U{202F}' || c == '\U{205F}' || c == '\U{3000}'
  }

  predicate Trimmed(s: string) {
    s == "" || (!IsSpace(s[0]) && !IsSpace(s[|s| - 1]))
  }

  /** strings.TrimSpace: no space is left at either end. */
  function TrimSpace(s: string): (r: string)
    ensures Trimmed(r)
    ensures Trimmed(s) ==> r == s
    ensures forall c <- r :: c in s
  {
    if s == "" then s
    else if IsSpace(s[0]) then TrimSpace(s[1..])
    else if IsSpace(s[|s| - 1]) then TrimSpace(s[..|s| - 1])
    else s
  }

  /** The white space of Unicode. */
  lemma SpacesExactly(c: char)
    ensures IsSpace(c) <==>
            c in {'\U{0009}', '\U{000A}', '\U{000B}', '\U{000C}', '\U{000D}', '\U{0020}', '\U{0085}', '\U{00A0}',
                  '\U{1680}', '\U{2000}', '\U{2001}', '\U{2002}', '\U{2003}', '\U{2004}', '\U{2005}', '\U{2006}',
                  '\U{2007}', '\U{2008}', '\U{2009}', '\U{200A}', '\U{2028}', '\U{2029}', '\U{202F}', '\U{205F}',
                  '\U{3000}'}
  {
  }

  /** Trimming cuts off spaces at both ends and nothing else, until none is left there. */
  lemma {:induction false} TrimCutsSpaces(s: string)
    ensures exists i, j :: 0 <= i <= j <= |s| && IsTrimmedFrom(s, TrimSpace(s), i, j)
  {
    hide IsSpace;
    if s != "" && IsSpace(s[0]) {
      TrimCutsSpaces(s[1..]);
      var i, j :| 0 <= i <= j <= |s[1..]| && IsTrimmedFrom(s[1..], TrimSpace(s[1..]), i, j);
      assert s[1..][i..j] == s[i + 1..j + 1];
      assert forall k :: 0 < k < |s| ==> s[1..][k - 1] == s[k];
      assert IsTrimmedFrom(s, TrimSpace(s), i + 1, j + 1);
    } else if s != "" && IsSpace(s[|s| - 1]) {
      TrimCutsSpaces(s[..|s| - 1]);
      var i, j :| 0 <= i <= j <= |s| - 1 && IsTrimmedFrom(s[..|s| - 1], TrimSpace(s[..|s| - 1]), i, j);
      assert s[..|s| - 1][i..j] == s[i..j];
      assert forall k :: 0 <= k < |s| - 1 ==> s[..|s| - 1][k] == s[k];
      assert IsTrimmedFrom(s, TrimSpace(s), i, j);
    } else {
      assert s[0..|s|] == s;
      assert IsTrimmedFrom(s, TrimSpace(s), 0, |s|);
    }
  }

  ghost predicate IsTrimmedFrom(s: string, r: string, i: int, j: int)
    requires 0 <= i <= j <= |s|
  {
    && r == s[i..j] && (r != "" ==> !IsSpace(r[0]) && !IsSpace(r[|r| - 1]))
    && forall k :: 0 <= k < |s| && (k < i || j <= k) ==> IsSpace(s[k])
  }

  // ---------- Splitting and joining on a one-character separator ----------

  predicate Free(s: string, sep: char) {
    sep !in s
  }

  predicate AllFree(parts: seq<string>, sep: char) {
    forall p <- parts :: Free(p, sep)
  }

  /** strings.Split(s, sep): never empty. */
  function Split(s: string, sep: char): (parts: seq<string>)
    ensures |parts| >= 1 && AllFree(parts, sep)
  {
    if s == "" then [""]
    else
      var rest := Split(s[1..], sep);
      if s[0] == sep then [""] + rest
      else
        assert Free(rest[0], sep);
        [[s[0]] + rest[0]] + rest[1..]
  }

  /** strings.Join(parts, sep) */
  function Join(parts: seq<string>, sep: char): string {
    if parts == [] then "" else if |parts| == 1 then parts[0]
    else parts[0] + [sep] + Join(parts[1..], sep)
  }

  lemma {:induction false} JoinSplit(s: string, sep: char)
    ensures Join(Split(s, sep), sep) == s
  {
    if s != "" {
      JoinSplit(s[1..], sep);
      var rest := Split(s[1..], sep);
      if s[0] == sep {
        assert ([""] + rest)[1..] == rest;
        assert "" + [sep] + s[1..] == s;
      } else {
        var parts := [[s[0]] + rest[0]] + rest[1..];
        assert Split(s, sep) == parts;
        if |rest| > 1 {
          assert parts[1..] == rest[1..];
          assert Join(parts, sep) == [s[0]] + (rest[0] + [sep] + Join(rest[1..], sep));
        }
      }
    }
  }

  lemma {:induction false} SplitPrefix(head: string, tail: string, sep: char)
    requires Free(head, sep)
    ensures Split(head + [sep] + tail, sep) == [head] + Split(tail, sep)
  {
    var s := head + [sep] + tail;
    if head == "" {
      assert s[1..] == tail;
    } else {
      SplitPrefix(head[1..], tail, sep);
      assert s[1..] == head[1..] + [sep] + tail;
      assert s[0] == head[0] && [head[0]] + head[1..] == head;
    }
  }

  lemma {:induction false} SplitSingle(s: string, sep: char)
    requires Free(s, sep)
    ensures Split(s, sep) == [s]
  {
    if s != "" {
      SplitSingle(s[1..], sep);
      assert [s[0]] + s[1..] == s;
    }
  }

  lemma {:induction false} SplitJoin(parts: seq<string>, sep: char)
    requires parts != [] && AllFree(parts, sep)
    ensures Split(Join(parts, sep), sep) == parts
  {
    if |parts| == 1 {
      SplitSingle(parts[0], sep);
    } else {
      SplitJoin(parts[1..], sep);
      SplitPrefix(parts[0], Join(parts[1..], sep), sep);
      assert [parts[0]] + parts[1..] == parts;
    }
  }

  // ---------- The stored form of a list: Split(Trim(text, sep), sep), with "" for no entries ----------

  /** strings.Trim(s, sep): no separator is left at either end. */
  function TrimSep(s: string, sep: char): (r: string)
    ensures r == "" || (r[0] != sep && r[|r| - 1] != sep)
    ensures s == "" || (s[0] != sep && s[|s| - 1] != sep) ==> r == s
  {
    if s == "" then s
    else if s[0] == sep then TrimSep(s[1..], sep)
    else if s[|s| - 1] == sep then TrimSep(s[..|s| - 1], sep)
    else s
  }

  /** How a channel reads back its keys (newlines) and its models (commas). */
  function Entries(text: string, sep: char): (parts: seq<string>)
    ensures AllFree(parts, sep)
    ensures text == "" <==> parts == []
  {
    if text == "" then [] else Split(TrimSep(text, sep), sep)
  }

  /** The first and the last entry are not blank, so trimming the joined text eats no separator. */
  predicate SolidEdges(parts: seq<string>) {
    parts != [] ==> parts[0] != "" && parts[|parts| - 1] != ""
  }

  lemma {:induction false} JoinEdges(parts: seq<string>, sep: char)
    requires AllFree(parts, sep) && parts != []
    ensures Join(parts, sep) == "" <==> parts == [""]
    ensures parts != [""] ==>
              var text := Join(parts, sep);
              (text[0] == sep <==> parts[0] == "") && (text[|text| - 1] == sep <==> parts[|parts| - 1] == "")
  {
    if |parts| > 1 {
      var rest := parts[1..];
      assert Free(parts[0], sep) && rest[|rest| - 1] == parts[|parts| - 1];
      JoinEdges(rest, sep);
      var text, tail := Join(parts, sep), Join(rest, sep);
      assert text == parts[0] + [sep] + tail;
      if tail != "" {
        assert text[|text| - 1] == tail[|tail| - 1];
      }
    } else {
      assert Free(parts[0], sep);
    }
  }

  /** Storing a list and reading it back gives the list exactly when its edges are not blank. */
  lemma EntriesRoundTrip(parts: seq<string>, sep: char)
    requires AllFree(parts, sep)
    ensures Entries(Join(parts, sep), sep) == parts <==> SolidEdges(parts)
  {
    if parts != [] {
      var text := Join(parts, sep);
      JoinEdges(parts, sep);
      var trimmed := TrimSep(text, sep);
      if SolidEdges(parts) {
        SplitJoin(parts, sep);
      } else if Entries(text, sep) == parts {
        JoinSplit(trimmed, sep);
        assert false;
      }
    }
  }

  /** The list without the blank entries at its ends; of blank entries only, one is left. */
  function TrimEdges(parts: seq<string>): (r: seq<string>)
    ensures |r| <= |parts| && (parts != [] ==> r != [])
    ensures SolidEdges(parts) ==> r == parts
    ensures forall p <- r :: p in parts
  {
    if |parts| <= 1 then parts
    else if parts[0] == "" then TrimEdges(parts[1..])
    else if parts[|parts| - 1] == "" then TrimEdges(parts[..|parts| - 1])
    else parts
  }

  lemma {:induction false} JoinLast(parts: seq<string>, last: string, sep: char)
    requires parts != []
    ensures Join(parts + [last], sep) == Join(parts, sep) + [sep] + last
  {
    var all := parts + [last];
    assert all[1..] == parts[1..] + [last];
    if |parts| == 1 {
      assert all[1..] == [last];
    } else {
      JoinLast(parts[1..], last, sep);
    }
  }

  lemma {:induction false} TrimJoin(parts: seq<string>, sep: char)
    requires parts != [] && AllFree(parts, sep)
    ensures TrimSep(Join(parts, sep), sep) == Join(TrimEdges(parts), sep)
    decreases |parts|
  {
    JoinEdges(parts, sep);
    var text := Join(parts, sep);
    if |parts| == 1 {
      assert Free(parts[0], sep);
    } else if parts[0] == "" {
      assert text[1..] == Join(parts[1..], sep);
      TrimJoin(parts[1..], sep);
    } else if parts[|parts| - 1] == "" {
      var init := parts[..|parts| - 1];
      assert parts == init + [""];
      JoinLast(init, "", sep);
      assert text[..|text| - 1] == Join(init, sep);
      assert text[0] != sep;
      TrimJoin(init, sep);
    }
  }

  /** Storing a list and reading it back cuts off the blank entries at its ends. */
  lemma EntriesOfJoin(parts: seq<string>, sep: char)
    requires AllFree(parts, sep)
    ensures Entries(Join(parts, sep), sep) == if parts == [] || parts == [""] then [] else TrimEdges(parts)
  {
    if parts != [] {
      JoinEdges(parts, sep);
      TrimJoin(parts, sep);
      SplitJoin(TrimEdges(parts), sep);
    }
  }
}
