/** Splitting a stream into lines, and looking for a text in a stream or in its lines. */
module Lines {

  /** `strings.Split(s, "\n")`: always at least one line. */
  function Split(s: string): (lines: seq<string>)
    ensures |lines| >= 1
    ensures Join(lines) == s
    ensures forall line :: line in lines ==> '\n' !in line
  {
    if s == "" then [""]
    else
      var rest := Split(s[1..]);
      if s[0] == '\n' then [""] + rest
      else [[s[0]] + rest[0]] + rest[1..]
  }

  function Join(lines: seq<string>): string
    requires |lines| >= 1
  {
    if |lines| == 1 then lines[0] else lines[0] + "\n" + Join(lines[1..])
  }

  /** `strings.Contains(s, text)`. */
  predicate Contains(s: string, text: string) {
    text <= s || (s != "" && Contains(s[1..], text))
  }

  lemma {:induction false} ContainsIsSubstring(s: string, text: string)
    ensures Contains(s, text) <==> exists i :: 0 <= i <= |s| && text <= s[i..]
  {
    if text <= s {
      assert s[0..] == s;
    } else if s != "" {
      ContainsIsSubstring(s[1..], text);
      if Contains(s[1..], text) {
        var i :| 0 <= i <= |s[1..]| && text <= s[1..][i..];
        assert s[1..][i..] == s[i + 1..];
      }
      forall i | 0 <= i <= |s| && text <= s[i..] ensures Contains(s[1..], text) {
        assert i > 0 by { assert s[0..] == s; }
        assert s[1..][i - 1..] == s[i..];
      }
    } else {
      assert forall i :: 0 <= i <= |s| ==> s[i..] == s;
    }
  }

  ghost predicate MatchesSomeLine(lines: seq<string>, text: string) {
    exists line :: line in lines && Contains(line, text)
  }

  /** The first line is the longest newline-free prefix. */
  lemma {:induction false} FirstLinePrefixes(s: string, text: string)
    ensures text <= Split(s)[0] <==> text <= s && '\n' !in text
  {
    if s != "" && s[0] != '\n' && text != "" {
      FirstLinePrefixes(s[1..], text[1..]);
      var rest := Split(s[1..]);
      assert text == [text[0]] + text[1..];
      assert s == [s[0]] + s[1..];
      assert text <= [s[0]] + rest[0] <==> text[0] == s[0] && text[1..] <= rest[0];
      assert text <= s <==> text[0] == s[0] && text[1..] <= s[1..];
    }
  }

  /** Matching line by line finds a text exactly when the whole stream contains it and it spans no line end. */
  lemma {:induction false} LineMatchIsStreamMatch(s: string, text: string)
    ensures MatchesSomeLine(Split(s), text) <==> '\n' !in text && Contains(s, text)
  {
    FirstLinePrefixes(s, text);
    var lines := Split(s);
    if s == "" {
      assert lines[0] == "";
      assert Contains(lines[0], text) <==> text == "";
    } else {
      LineMatchIsStreamMatch(s[1..], text);
      var rest := Split(s[1..]);
      if s[0] == '\n' {
        assert lines[1..] == rest;
        assert lines == [lines[0]] + rest;
      } else {
        assert lines == [lines[0]] + rest[1..];
        assert rest == [rest[0]] + rest[1..];
        assert lines[0][1..] == rest[0];
        assert Contains(lines[0], text) <==> text <= lines[0] || Contains(rest[0], text);
      }
    }
  }
}
