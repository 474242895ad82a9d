/** Form keys such as `columns[0][search][value]`, and the lists of segments they stand for. */
module KeyParser {

  predicate Bracket(c: char) {
    c == '[' || c == ']'
  }

  predicate BracketFree(s: string) {
    forall i :: 0 <= i < |s| ==> !Bracket(s[i])
  }

  predicate Segment(s: string) {
    s != "" && BracketFree(s)
  }

  predicate Segments(path: seq<string>) {
    forall i :: 0 <= i < |path| ==> Segment(path[i])
  }

  /** The segment under construction, if there is one. */
  function Closed(buffer: string): seq<string> {
    if buffer == "" then [] else [buffer]
  }

  /** The segments of `key`, read with the characters of `buffer` already collected. */
  function ParseFrom(key: string, buffer: string): seq<string> {
    if key == "" then Closed(buffer)
    else if Bracket(key[0]) then Closed(buffer) + ParseFrom(key[1..], "")
    else ParseFrom(key[1..], buffer + [key[0]])
  }

  function Parse(key: string): seq<string> {
    ParseFrom(key, "")
  }

  method ParseKey(key: string) returns (res: seq<string>)
    ensures res == Parse(key)
  {
    res := [];
    var currKey := "";
    for i := 0 to |key|
      invariant res + ParseFrom(key[i..], currKey) == Parse(key)
    {
      assert key[i..][1..] == key[i + 1..];
      if key[i] == '[' || key[i] == ']' {
        if |currKey| > 0 {
          res := res + [currKey];
          currKey := "";
        }
      } else {
        currKey := currKey + [key[i]];
      }
    }
    if |currKey| > 0 {
      res := res + [currKey];
    }
  }

  function PrintRest(path: seq<string>): string {
    if path == [] then "" else "[" + path[0] + "]" + PrintRest(path[1..])
  }

  /** A path as a form key. */
  function Print(path: seq<string>): string {
    if path == [] then "" else path[0] + PrintRest(path[1..])
  }

  lemma {:induction false} ParseSegment(segment: string, rest: string, buffer: string)
    requires BracketFree(segment)
    ensures ParseFrom(segment + rest, buffer) == ParseFrom(rest, buffer + segment)
  {
    if segment == "" {
      assert segment + rest == rest && buffer + segment == buffer;
    } else {
      assert (segment + rest)[1..] == segment[1..] + rest;
      assert buffer + [segment[0]] + segment[1..] == buffer + segment;
      ParseSegment(segment[1..], rest, buffer + [segment[0]]);
    }
  }

  lemma {:induction false} ParseRest(path: seq<string>, buffer: string)
    requires Segments(path)
    ensures ParseFrom(PrintRest(path), buffer) == Closed(buffer) + path
  {
    if path != [] {
      var rest := PrintRest(path[1..]);
      var printed := PrintRest(path);
      assert printed[1..] == path[0] + ("]" + rest);
      ParseSegment(path[0], "]" + rest, "");
      assert ("]" + rest)[1..] == rest;
      assert "" + path[0] == path[0];
      ParseRest(path[1..], "");
      assert Closed(path[0]) + path[1..] == path;
    }
  }

  /** Printing a path of non-empty bracket-free segments and parsing it gives the path back. */
  lemma ParsePrint(path: seq<string>)
    requires Segments(path)
    ensures Parse(Print(path)) == path
  {
    if path != [] {
      ParseSegment(path[0], PrintRest(path[1..]), "");
      assert "" + path[0] == path[0];
      ParseRest(path[1..], path[0]);
    }
  }

  /** The segments of a key are its longest stretches without brackets, in order: a key without brackets is its own
      segment, or has none if it is empty, and any bracket parts a key into two that are read on their own. */
  lemma ParseBetweenBrackets(a: string, bracket: char, b: string)
    requires bracket == '[' || bracket == ']'
    ensures '[' !in a && ']' !in a ==> Parse(a) == if a == "" then [] else [a]
    ensures Parse(a + [bracket] + b) == Parse(a) + Parse(b)
  {
    if '[' !in a && ']' !in a {
      ParseSegment(a, "", "");
      assert a + "" == a && "" + a == a;
    }
    ParseParts(a, bracket, b, "");
  }

  lemma {:induction false} ParseParts(a: string, bracket: char, b: string, buffer: string)
    requires Bracket(bracket)
    ensures ParseFrom(a + [bracket] + b, buffer) == ParseFrom(a, buffer) + ParseFrom(b, "")
  {
    var key := a + [bracket] + b;
    if a == "" {
      assert key[1..] == b;
    } else {
      assert key[1..] == a[1..] + [bracket] + b;
      if Bracket(a[0]) {
        ParseParts(a[1..], bracket, b, "");
      } else {
        ParseParts(a[1..], bracket, b, buffer + [a[0]]);
      }
    }
  }

  lemma {:induction false} ParsedAreSegments(key: string, buffer: string)
    requires BracketFree(buffer)
    ensures Segments(ParseFrom(key, buffer))
  {
    if key != "" {
      if Bracket(key[0]) {
        ParsedAreSegments(key[1..], "");
      } else {
        ParsedAreSegments(key[1..], buffer + [key[0]]);
      }
    }
  }

  /** Any key, parsed, printed and parsed again, gives the same segments; so keys that parse alike are one key
      after printing, however their brackets are placed. */
  lemma ParsePrintParse(key: string)
    ensures Parse(Print(Parse(key))) == Parse(key)
  {
    ParsedAreSegments(key, "");
    ParsePrint(Parse(key));
  }
}
