/** The text helpers of src/files.rs over ASCII text: line joining, the
    `@word` annotation matcher and the directory search built on it. */
module Files {
  import opened Wrappers

  // ---------------------------------------------------------------- join

  /** Index of the first '\n' in `s`, or |s| when there is none. */
  function FirstNewline(s: string): (i: nat)
    ensures i <= |s|
    ensures i < |s| ==> s[i] == '\n'
    ensures forall j :: 0 <= j < i ==> s[j] != '\n'
  {
    if |s| == 0 then 0
    else if s[0] == '\n' then 0
    else 1 + FirstNewline(s[1..])
  }

  /** A line as `BufRead::lines` yields it: the text before a '\n', with one
      '\r' removed from its end when the line was terminated by "\r\n". */
  function StripCarriageReturn(line: string): string {
    if |line| > 0 && line[|line| - 1] == '\r' then line[..|line| - 1] else line
  }

  /** `BufRead::lines`: the '\n'-terminated lines of `s` without their
      terminators, then the unterminated remainder if it is non-empty. That
      remainder keeps a trailing '\r'. */
  function Lines(s: string): (ls: seq<string>)
    ensures forall k :: 0 <= k < |ls| ==> '\n' !in ls[k]
    decreases |s|
  {
    if |s| == 0 then []
    else
      var i := FirstNewline(s);
      if i == |s| then [s]
      else [StripCarriageReturn(s[..i])] + Lines(s[i + 1..])
  }

  function Concat(ls: seq<string>): string {
    if |ls| == 0 then [] else ls[0] + Concat(ls[1..])
  }

  /** `join`: the lines of `src` concatenated, terminators dropped. */
  function Join(src: string): string {
    Concat(Lines(src))
  }

  /** Independent characterisation of `join`, one character at a time: drop
      every '\n' and every '\r' that immediately precedes one. */
  function DropTerminators(s: string): string
    decreases |s|
  {
    if |s| == 0 then []
    else if s[0] == '\n' then DropTerminators(s[1..])
    else if s[0] == '\r' && |s| >= 2 && s[1] == '\n' then DropTerminators(s[2..])
    else [s[0]] + DropTerminators(s[1..])
  }

  lemma {:induction false} DropTerminatorsHasNoNewline(s: string)
    ensures '\n' !in DropTerminators(s)
    decreases |s|
  {
    if |s| == 0 {
    } else if s[0] == '\n' {
      DropTerminatorsHasNoNewline(s[1..]);
    } else if s[0] == '\r' && |s| >= 2 && s[1] == '\n' {
      DropTerminatorsHasNoNewline(s[2..]);
    } else {
      DropTerminatorsHasNoNewline(s[1..]);
    }
  }

  /** Without a '\n' in it, text keeps every character. */
  lemma {:induction false} DropTerminatorsOfLine(s: string)
    requires '\n' !in s
    ensures DropTerminators(s) == s
    decreases |s|
  {
    if |s| > 0 {
      assert s[0] in s;
      if s[0] == '\r' && |s| >= 2 {
        assert s[1] in s;
      }
      assert forall c :: c in s[1..] ==> c in s;
      DropTerminatorsOfLine(s[1..]);
    }
  }

  /** Dropping terminators distributes over a split after a '\n'. */
  lemma {:induction false} DropTerminatorsOfLineAndRest(line: string, rest: string)
    requires '\n' !in line
    ensures DropTerminators(line + "\n" + rest)
         == StripCarriageReturn(line) + DropTerminators(rest)
    decreases |line|
  {
    var s := line + "\n" + rest;
    if |line| == 0 {
      assert s[0] == '\n' && s[1..] == rest;
    } else if |line| == 1 && line[0] == '\r' {
      assert s[0] == '\r' && s[1] == '\n' && s[2..] == rest;
    } else {
      assert line[0] in line;
      assert s[0] == line[0];
      assert s[1..] == line[1..] + "\n" + rest;
      assert forall c :: c in line[1..] ==> c in line;
      if |line| >= 2 {
        assert s[1] == line[1];
        assert line[1] in line;
      }
      DropTerminatorsOfLineAndRest(line[1..], rest);
      if |line| >= 2 && line[|line| - 1] == '\r' {
        assert StripCarriageReturn(line) == [line[0]] + StripCarriageReturn(line[1..]);
      } else {
        assert StripCarriageReturn(line) == line;
        assert StripCarriageReturn(line[1..]) == line[1..];
      }
    }
  }

  /** `join` removes exactly the line terminators: it agrees with the
      character-level definition on every input. */
  lemma {:induction false} JoinDropsTerminators(s: string)
    ensures Join(s) == DropTerminators(s)
    decreases |s|
  {
    if |s| > 0 {
      var i := FirstNewline(s);
      assert '\n' !in s[..i];
      if i == |s| {
        assert s[..i] == s;
        DropTerminatorsOfLine(s);
        assert Concat([s]) == s + Concat([]);
      } else {
        var rest := s[i + 1..];
        assert s == s[..i] + "\n" + rest;
        DropTerminatorsOfLineAndRest(s[..i], rest);
        JoinDropsTerminators(rest);
        var ls := Lines(s);
        assert ls == [StripCarriageReturn(s[..i])] + Lines(rest);
        assert ls[1..] == Lines(rest);
      }
    }
  }

  /** `join`'s output has no '\n', and text without one comes back unchanged. */
  lemma JoinProperties(s: string)
    ensures '\n' !in Join(s)
    ensures '\n' !in s ==> Join(s) == s
  {
    JoinDropsTerminators(s);
    DropTerminatorsHasNoNewline(s);
    if '\n' !in s {
      DropTerminatorsOfLine(s);
    }
  }

  /** Lines written out, each followed by the terminator `term`. */
  function Unlines(ls: seq<string>, term: string): string {
    if |ls| == 0 then [] else ls[0] + term + Unlines(ls[1..], term)
  }

  /** A line that `join` gives back unchanged: no '\n' inside, and, unless it
      is terminated by "\r\n", no '\r' at its end (which "\n" would turn into
      a CRLF terminator). */
  predicate JoinableLine(line: string, term: string) {
    '\n' !in line && (term == "\n" ==> line == StripCarriageReturn(line))
  }

  /** Round trip: writing lines out with LF or CRLF terminators and joining
      them gives back their concatenation. */
  lemma {:induction false} JoinUnlines(ls: seq<string>, term: string)
    requires term == "\n" || term == "\r\n"
    requires forall k :: 0 <= k < |ls| ==> JoinableLine(ls[k], term)
    ensures Join(Unlines(ls, term)) == Concat(ls)
    decreases |ls|
  {
    JoinDropsTerminators(Unlines(ls, term));
    if |ls| > 0 {
      var rest := Unlines(ls[1..], term);
      assert JoinableLine(ls[0], term);
      JoinUnlines(ls[1..], term);
      JoinDropsTerminators(rest);
      if term == "\n" {
        assert Unlines(ls, term) == ls[0] + "\n" + rest;
        DropTerminatorsOfLineAndRest(ls[0], rest);
      } else {
        var line := ls[0] + "\r";
        assert Unlines(ls, term) == line + "\n" + rest;
        assert '\n' !in line by {
          assert forall i :: 0 <= i < |ls[0]| ==> line[i] == ls[0][i];
        }
        assert line[..|line| - 1] == ls[0];
        DropTerminatorsOfLineAndRest(line, rest);
      }
    }
  }

  datatype IoError = CannotOpen

  /** `read_file_join` on a file that opens (`Some(content)`) or does not (`None`). */
  function ReadFileJoin(file: Option<string>): (r: Result<string, IoError>)
    ensures file.None? <==> r.Err?
    ensures r.Ok? ==> r.value == DropTerminators(file.value) && '\n' !in r.value
  {
    match file
    case None => Err(CannotOpen)
    case Some(content) =>
      JoinProperties(content);
      JoinDropsTerminators(content);
      Ok(Join(content))
  }

  // ------------------------------------------------------ annotation match

  /** ASCII word characters, as `\b` sees them on ASCII text. */
  predicate IsWordChar(c: char) {
    ('a' <= c <= 'z') || ('A' <= c <= 'Z') || ('0' <= c <= '9') || c == '_'
  }

  predicate WordAt(s: string, k: int) {
    0 <= k < |s| && IsWordChar(s[k])
  }

  /** `\b` at position k (between s[k-1] and s[k]). */
  predicate Boundary(s: string, k: int) {
    WordAt(s, k - 1) != WordAt(s, k)
  }

  function ToLower(c: char): char {
    if 'A' <= c <= 'Z' then (c as int + 32) as char else c
  }

  /** `(?i:word)` on ASCII text. */
  predicate EqualIgnoringCase(a: string, b: string) {
    |a| == |b| && forall i :: 0 <= i < |a| ==> ToLower(a[i]) == ToLower(b[i])
  }

  /** The pattern `@(\b)(?i:word)(\b)` matches at position i. */
  predicate MatchesAt(s: string, word: string, i: int) {
    && 0 <= i
    && i + 1 + |word| <= |s|
    && s[i] == '@'
    && Boundary(s, i + 1)
    && EqualIgnoringCase(s[i + 1..i + 1 + |word|], word)
    && Boundary(s, i + 1 + |word|)
  }

  /** `annotation_pattern(word).is_match(s)`. */
  predicate AnnotationMatches(s: string, word: string) {
    exists i :: 0 <= i < |s| && MatchesAt(s, word, i)
  }

  /** The left-to-right scan a regex engine performs, from position `from`. */
  function MatchFrom(s: string, word: string, from: nat): (b: bool)
    ensures b <==> exists i :: from <= i && MatchesAt(s, word, i)
    decreases |s| - from
  {
    if from >= |s| then false
    else MatchesAt(s, word, from) || MatchFrom(s, word, from + 1)
  }

  /** The matcher as an executable check. */
  function IsMatch(s: string, word: string): (b: bool)
    ensures b <==> AnnotationMatches(s, word)
  {
    MatchFrom(s, word, 0)
  }

  /** `@` directly followed by any-case spelling of a word that begins and
      ends with word characters, then a non-word character or the end of the
      text, is a match. */
  lemma AnnotationAtStart(v: string, word: string, rest: string)
    requires EqualIgnoringCase(v, word)
    requires |word| > 0 && IsWordChar(v[0]) && IsWordChar(v[|v| - 1])
    requires rest == [] || !IsWordChar(rest[0])
    ensures AnnotationMatches("@" + v + rest, word)
  {
    var s := "@" + v + rest;
    assert s[1..1 + |word|] == v;
    assert s[|word|] == v[|v| - 1];
    assert MatchesAt(s, word, 0);
  }

  /** A word character right after the word rules out a match at that `@`. */
  lemma NoMatchBeforeWordChar(s: string, word: string, i: int)
    requires 0 <= i && i + 1 + |word| < |s|
    requires |word| > 0 && IsWordChar(s[i + |word|]) && IsWordChar(s[i + 1 + |word|])
    ensures !MatchesAt(s, word, i)
  {
  }

  /** Text without `@` never matches: `IsTest public class Yoda {}`. */
  lemma NoMatchWithoutAt(s: string, word: string)
    requires '@' !in s
    ensures !AnnotationMatches(s, word)
  {
  }

  /** The word must follow `@` directly: `@ IsTest` does not match at that `@`. */
  lemma NoMatchAfterNonWordChar(s: string, word: string, i: int)
    requires 0 <= i < |s| && (i + 1 == |s| || !IsWordChar(s[i + 1]))
    ensures !MatchesAt(s, word, i)
  {
  }

  /** The letter case of the word given to the matcher is irrelevant. */
  lemma MatchIgnoresCaseOfWord(s: string, w1: string, w2: string)
    requires EqualIgnoringCase(w1, w2)
    ensures AnnotationMatches(s, w1) <==> AnnotationMatches(s, w2)
  {
    forall i | 0 <= i < |s|
      ensures MatchesAt(s, w1, i) <==> MatchesAt(s, w2, i)
    {
      if i + 1 + |w1| <= |s| {
        var v := s[i + 1..i + 1 + |w1|];
        assert EqualIgnoringCase(v, w1) <==> EqualIgnoringCase(v, w2);
      }
    }
  }

  // ----------------------------------------------------------- directory walk

  /** One item of the directory walk: a walk error (filtered out), an entry
      that is not a regular file, or a regular file whose text is readable
      (`Some`) or not. The walk does not follow links, so a symbolic link is
      `NotRegularFile` like a directory. */
  datatype WalkEntry = WalkError | NotRegularFile | RegularFile(content: Option<string>)

  predicate FileMatches(e: WalkEntry, word: string) {
    e.RegularFile? && e.content.Some? && AnnotationMatches(e.content.value, word)
  }

  /** `find_one_file`: walk the entries and stop at the first readable
      regular file that contains the annotation. */
  method FindOneFile(entries: seq<WalkEntry>, word: string) returns (found: bool)
    ensures found <==> exists k :: 0 <= k < |entries| && FileMatches(entries[k], word)
  {
    var k := 0;
    while k < |entries|
      invariant 0 <= k <= |entries|
      invariant forall j :: 0 <= j < k ==> !FileMatches(entries[j], word)
    {
      var e := entries[k];
      if e.RegularFile? {
        match e.content {
          case Some(text) =>
            var b := IsMatch(text, word);
            if b {
              return true;
            }
          case None =>
        }
      }
      k := k + 1;
    }
    return false;
  }
}
