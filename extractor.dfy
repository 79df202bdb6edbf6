/** The script-block extractor `parse_neo_block` (src/main.rs:149-161):
    trim the message text and, when it is fenced by "```neo" and "```",
    return the text between the fences.

    The source measures and slices in UTF-8 bytes. Both fences are ASCII,
    so cutting 6 bytes off the front and 3 off the back of a text that
    carries them cuts exactly 6 and 3 characters; the model works on
    characters throughout. */
module Extractor {
  import opened Utils

  const Prefix: string := "```neo"
  const Suffix: string := "```"

  /** `char::is_whitespace`: the Unicode White_Space property, which is what
      `str::trim` strips. */
  predicate IsWhitespace(c: char) {
    ('\U{9}' <= c <= '\U{D}') || c == '\U{20}' || c == '\U{85}' || c == '\U{A0}'
    || c == '\U{1680}' || ('\U{2000}' <= c <= '\U{200A}') || c == '\U{2028}'
    || c == '\U{2029}' || c == '\U{202F}' || c == '\U{205F}' || c == '\U{3000}'
  }

  /** Drops the leading whitespace: what is left is a suffix of `s`, every
      dropped character is whitespace, and it starts with a non-whitespace
      character unless it is empty. */
  function TrimStart(s: string): (r: string)
    ensures |r| <= |s| && r == s[|s| - |r|..]
    ensures forall k :: 0 <= k < |s| - |r| ==> IsWhitespace(s[k])
    ensures r != [] ==> !IsWhitespace(r[0])
  {
    if s != [] && IsWhitespace(s[0]) then TrimStart(s[1..]) else s
  }

  /** Drops the trailing whitespace; the mirror image of `TrimStart`. */
  function TrimEnd(s: string): (r: string)
    ensures |r| <= |s| && r == s[..|r|]
    ensures forall k :: |r| <= k < |s| ==> IsWhitespace(s[k])
    ensures r != [] ==> !IsWhitespace(r[|r| - 1])
  {
    if s != [] && IsWhitespace(s[|s| - 1]) then TrimEnd(s[..|s| - 1]) else s
  }

  /** `str::trim`. */
  function Trim(s: string): (r: string)
    ensures r != [] ==> !IsWhitespace(r[0]) && !IsWhitespace(r[|r| - 1])
    ensures r == [] <==> forall k :: 0 <= k < |s| ==> IsWhitespace(s[k])
  {
    TrimEnd(TrimStart(s))
  }

  predicate StartsWith(s: string, p: string) { |p| <= |s| && s[..|p|] == p }

  predicate EndsWith(s: string, p: string) { |p| <= |s| && s[|s| - |p|..] == p }

  /** `parse_neo_block`: accepted exactly when the trimmed text carries both
      fences, and then the trimmed text is the prefix fence, the result and
      the suffix fence, in that order. */
  function ParseNeoBlock(msg: string): (r: Option<string>)
    ensures r.Some? <==> StartsWith(Trim(msg), Prefix) && EndsWith(Trim(msg), Suffix)
    ensures r.Some? ==> Trim(msg) == Prefix + r.value + Suffix
    ensures r.Some? ==> |r.value| == |Trim(msg)| - |Prefix| - |Suffix|
  {
    var m := Trim(msg);
    if StartsWith(m, Prefix) && EndsWith(m, Suffix) then
      FencesDoNotOverlap(m);
      Some(m[|Prefix|..|m| - |Suffix|])
    else
      None
  }

  /** Any text carrying both fences is at least 9 characters long, so the
      slice between them is well formed: the fences cannot share a
      character. */
  lemma FencesDoNotOverlap(m: string)
    requires StartsWith(m, Prefix) && EndsWith(m, Suffix)
    ensures |m| >= |Prefix| + |Suffix|
    ensures m == Prefix + m[|Prefix|..|m| - |Suffix|] + Suffix
  {
    // The suffix fence cannot start inside "```neo": its last three
    // characters are not all backticks.
    var n := |m|;
    assert m[5] == 'o' by { assert m[..6][5] == Prefix[5]; }
    forall k | n - 3 <= k < n ensures m[k] == '`' {
      assert m[n - 3..][k - (n - 3)] == Suffix[k - (n - 3)];
    }
    assert m == m[..6] + m[6..|m| - 3] + m[|m| - 3..];
  }

  /** A text without whitespace at either end is its own trim. */
  lemma TrimUnchanged(s: string)
    requires s != [] ==> !IsWhitespace(s[0]) && !IsWhitespace(s[|s| - 1])
    ensures Trim(s) == s
  {
  }

  /** Trimming twice is trimming once. */
  lemma TrimIdempotent(s: string)
    ensures Trim(Trim(s)) == Trim(s)
  {
    TrimUnchanged(Trim(s));
  }

  /** Round trip: a fenced block, with nothing around it, yields exactly its
      interior, whatever the interior holds (no escaping, no nesting). */
  lemma {:induction false} ParseRoundTrip(code: string)
    ensures ParseNeoBlock(Prefix + code + Suffix) == Some(code)
  {
    var m := Prefix + code + Suffix;
    assert m[0] == '`' && m[|m| - 1] == '`';
    TrimUnchanged(m);
    assert m[..|Prefix|] == Prefix;
    assert m[|m| - |Suffix|..] == Suffix;
    assert m[|Prefix|..|m| - |Suffix|] == code;
  }

  /** Whitespace around a block does not change what is extracted. */
  lemma {:induction false} ParseIgnoresSurroundingWhitespace(lead: string, code: string, trail: string)
    requires forall k :: 0 <= k < |lead| ==> IsWhitespace(lead[k])
    requires forall k :: 0 <= k < |trail| ==> IsWhitespace(trail[k])
    ensures ParseNeoBlock(lead + Prefix + code + Suffix + trail) == Some(code)
  {
    var m := Prefix + code + Suffix;
    var s := lead + m + trail;
    assert s == lead + Prefix + code + Suffix + trail;
    TrimAround(lead, m, trail);
    ParseRoundTrip(code);
  }

  /** Trimming strips exactly the whitespace padding around a core that
      neither starts nor ends with whitespace. */
  lemma TrimAround(lead: string, m: string, trail: string)
    requires m != [] && !IsWhitespace(m[0]) && !IsWhitespace(m[|m| - 1])
    requires forall k :: 0 <= k < |lead| ==> IsWhitespace(lead[k])
    requires forall k :: 0 <= k < |trail| ==> IsWhitespace(trail[k])
    ensures Trim(lead + m + trail) == m
  {
    assert lead + m + trail == lead + (m + trail);
    TrimStartSkips(lead, m + trail);
    TrimEndSkips(m, trail);
  }

  /** `TrimStart` drops a whitespace run and stops at the first other
      character. */
  lemma {:induction false} TrimStartSkips(lead: string, m: string)
    requires forall k :: 0 <= k < |lead| ==> IsWhitespace(lead[k])
    requires m != [] && !IsWhitespace(m[0])
    ensures TrimStart(lead + m) == m
  {
    if lead == [] {
      assert lead + m == m;
    } else {
      assert (lead + m)[1..] == lead[1..] + m;
      TrimStartSkips(lead[1..], m);
    }
  }

  /** `TrimEnd` drops a trailing whitespace run and stops at the last other
      character. */
  lemma {:induction false} TrimEndSkips(m: string, trail: string)
    requires m != [] && !IsWhitespace(m[|m| - 1])
    requires forall k :: 0 <= k < |trail| ==> IsWhitespace(trail[k])
    ensures TrimEnd(m + trail) == m
  {
    if trail == [] {
      assert m + trail == m;
    } else {
      var s := m + trail;
      assert s[..|s| - 1] == m + trail[..|trail| - 1];
      TrimEndSkips(m, trail[..|trail| - 1]);
    }
  }

  /** A text whose first non-whitespace character is not a backtick is
      not a script block. */
  lemma RejectsUnfenced(msg: string)
    requires Trim(msg) == [] || Trim(msg)[0] != '`'
    ensures ParseNeoBlock(msg) == None
  {
    var m := Trim(msg);
    if |m| >= |Prefix| {
      assert m[..|Prefix|][0] == m[0];
    }
  }

  /** A block that is opened but not closed, such as "```neo" followed by
      code and nothing else, is not a script block. */
  lemma RejectsUnclosed(msg: string)
    requires Trim(msg) == [] || Trim(msg)[|Trim(msg)| - 1] != '`'
    ensures ParseNeoBlock(msg) == None
  {
    var m := Trim(msg);
    if |m| >= |Suffix| {
      assert m[|m| - |Suffix|..][|Suffix| - 1] == m[|m| - 1];
    }
  }
}
