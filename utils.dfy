/**
 * The two pure helpers of lib/utils/index.ts that the search tool and the
 * agent layer rely on: `sanitizeUrl` and `transformToolMessages`.
 */
module Utils {
  import opened Wrappers
  import opened SeqFacts

  // ---------------------------------------------------------------------------
  // sanitizeUrl: url.replace(/\s+/g, '%20')
  // ---------------------------------------------------------------------------

  /** The characters matched by the JavaScript regular-expression class `\s`. */
  predicate IsWhitespace(c: char) {
    || c == ' ' || c == '\t' || c == '\n' || c == '\r'
    || c == '\U{000B}' || c == '\U{000C}' || c == '\U{00A0}' || c == '\U{1680}'
    || ('\U{2000}' <= c <= '\U{200A}')
    || c == '\U{2028}' || c == '\U{2029}' || c == '\U{202F}' || c == '\U{205F}'
    || c == '\U{3000}' || c == '\U{FEFF}'
  }

  predicate NoWhitespace(s: string) {
    forall i :: 0 <= i < |s| ==> !IsWhitespace(s[i])
  }

  predicate AllWhitespace(s: string) {
    forall i :: 0 <= i < |s| ==> IsWhitespace(s[i])
  }

  /** The percent-encoded space that replaces each whitespace run. */
  const EncodedSpace: string := "%20"

  /** Drops the whitespace run at the front of `s`, if any. */
  function SkipWhitespace(s: string): (r: string)
    ensures |r| <= |s|
    ensures r == [] || !IsWhitespace(r[0])
  {
    if s != [] && IsWhitespace(s[0]) then SkipWhitespace(s[1..]) else s
  }

  /**
   * `sanitizeUrl`: every maximal run of whitespace (the greedy `\s+` under the
   * global flag) becomes one `%20`; every other character is kept in place.
   */
  function SanitizeUrl(url: string): (r: string)
    ensures NoWhitespace(r)
    decreases |url|
  {
    if url == [] then []
    else if IsWhitespace(url[0]) then EncodedSpace + SanitizeUrl(SkipWhitespace(url[1..]))
    else [url[0]] + SanitizeUrl(url[1..])
  }

  /**
   * An independent, character-at-a-time reading of the same replacement: a
   * scanner that remembers whether it is inside a whitespace run, emits `%20`
   * on the first whitespace character of a run and nothing for the others.
   */
  function Scan(s: string, inRun: bool): string {
    if s == [] then []
    else if IsWhitespace(s[0]) then (if inRun then "" else EncodedSpace) + Scan(s[1..], true)
    else [s[0]] + Scan(s[1..], false)
  }

  /** Whether the scanner is inside a whitespace run after reading `s`. */
  function EndsInRun(s: string, inRun: bool): bool {
    if s == [] then inRun else EndsInRun(s[1..], IsWhitespace(s[0]))
  }

  /** After a non-empty string, the scanner is in a run exactly when its last character is whitespace. */
  lemma {:induction false} EndsInRunLast(s: string, inRun: bool)
    requires s != []
    ensures EndsInRun(s, inRun) == IsWhitespace(s[|s| - 1])
    decreases |s|
  {
    if |s| > 1 {
      EndsInRunLast(s[1..], IsWhitespace(s[0]));
    }
  }

  lemma {:induction false} ScanAppend(a: string, b: string, inRun: bool)
    ensures Scan(a + b, inRun) == Scan(a, inRun) + Scan(b, EndsInRun(a, inRun))
    decreases |a|
  {
    if a == [] {
      ConcatEmpty(b);
    } else {
      var next := IsWhitespace(a[0]);
      var emitted := if !next then [a[0]] else if inRun then "" else EncodedSpace;
      ConcatHead(a, b);
      assert Scan(a + b, inRun) == emitted + Scan(a[1..] + b, next);
      ScanAppend(a[1..], b, next);
      assert Scan(a, inRun) == emitted + Scan(a[1..], next);
      ConcatAssoc(emitted, Scan(a[1..], next), Scan(b, EndsInRun(a, inRun)));
    }
  }

  /** Inside a run, the scanner emits nothing until the run ends. */
  lemma {:induction false} ScanSkipsRun(s: string)
    ensures Scan(s, true) == Scan(SkipWhitespace(s), true)
    decreases |s|
  {
    if s != [] && IsWhitespace(s[0]) {
      ScanSkipsRun(s[1..]);
    }
  }

  /** Away from whitespace, whether a run was open makes no difference. */
  lemma ScanRunIrrelevant(s: string)
    requires s == [] || !IsWhitespace(s[0])
    ensures Scan(s, true) == Scan(s, false)
  {
  }

  /** The run-based definition and the scanner agree on every string. */
  lemma {:induction false} SanitizeUrlIsScan(url: string)
    ensures SanitizeUrl(url) == Scan(url, false)
    decreases |url|
  {
    if url == [] {
    } else if IsWhitespace(url[0]) {
      var rest := SkipWhitespace(url[1..]);
      SanitizeUrlIsScan(rest);
      ScanSkipsRun(url[1..]);
      ScanRunIrrelevant(rest);
    } else {
      SanitizeUrlIsScan(url[1..]);
    }
  }

  /** A URL without whitespace is returned unchanged. */
  lemma {:induction false} SanitizeUrlIdentity(url: string)
    requires NoWhitespace(url)
    ensures SanitizeUrl(url) == url
    decreases |url|
  {
    if url != [] {
      assert NoWhitespace(url[1..]) by {
        forall i | 0 <= i < |url[1..]| ensures !IsWhitespace(url[1..][i]) {
          assert url[1..][i] == url[i + 1];
        }
      }
      SanitizeUrlIdentity(url[1..]);
    }
  }

  /** Sanitizing twice is the same as sanitizing once. */
  lemma SanitizeUrlIdempotent(url: string)
    ensures SanitizeUrl(SanitizeUrl(url)) == SanitizeUrl(url)
  {
    SanitizeUrlIdentity(SanitizeUrl(url));
  }

  /** A string made only of whitespace is skipped entirely. */
  lemma {:induction false} SkipWhitespaceAll(w: string)
    requires AllWhitespace(w)
    ensures SkipWhitespace(w) == []
    decreases |w|
  {
    if w != [] {
      assert AllWhitespace(w[1..]) by {
        forall i | 0 <= i < |w[1..]| ensures IsWhitespace(w[1..][i]) {
          assert w[1..][i] == w[i + 1];
        }
      }
      SkipWhitespaceAll(w[1..]);
    }
  }

  /** A whole whitespace run, however long, becomes exactly one `%20`. */
  lemma SanitizeUrlRun(w: string)
    requires |w| > 0 && AllWhitespace(w)
    ensures SanitizeUrl(w) == EncodedSpace
  {
    SkipWhitespaceAll(w[1..]);
  }

  /**
   * Sanitizing splits at any boundary that does not cut a whitespace run:
   * runs are replaced as wholes and the characters around them keep their order.
   */
  lemma SanitizeUrlAppend(a: string, b: string)
    requires a == [] || b == [] || !IsWhitespace(a[|a| - 1]) || !IsWhitespace(b[0])
    ensures SanitizeUrl(a + b) == SanitizeUrl(a) + SanitizeUrl(b)
  {
    SanitizeUrlIsScan(a + b);
    SanitizeUrlIsScan(a);
    SanitizeUrlIsScan(b);
    ScanAppend(a, b, false);
    if a != [] {
      EndsInRunLast(a, false);
    }
    if b != [] && !IsWhitespace(b[0]) {
      ScanRunIrrelevant(b);
    }
  }

  /** A whitespace run followed by whitespace-free text: the run becomes one `%20`. */
  lemma SanitizeUrlRunThen(w: string, b: string)
    requires |w| > 0 && AllWhitespace(w) && NoWhitespace(b)
    ensures SanitizeUrl(w + b) == EncodedSpace + b
  {
    SanitizeUrlRun(w);
    SanitizeUrlIdentity(b);
    SanitizeUrlAppend(w, b);
  }

  /**
   * A maximal whitespace run between two whitespace-free pieces becomes exactly
   * one `%20`, and both pieces are kept as they were.
   */
  lemma SanitizeUrlGap(a: string, w: string, b: string)
    requires NoWhitespace(a) && |w| > 0 && AllWhitespace(w) && NoWhitespace(b)
    ensures SanitizeUrl(a + w + b) == a + EncodedSpace + b
  {
    SanitizeUrlRunThen(w, b);
    SanitizeUrlAppend(a, w + b);
    SanitizeUrlIdentity(a);
    ConcatAssoc(a, w, b);
    ConcatAssoc(a, EncodedSpace, b);
  }

  /** A worked example: two spaces become one `%20`. */
  lemma SanitizeUrlExample(url: string)
    requires url == "x  y"
    ensures SanitizeUrl(url) == "x%20y"
  {
    SanitizeUrlGap("x", "  ", "y");
    assert "x" + "  " + "y" == url;
  }

  // ---------------------------------------------------------------------------
  // transformToolMessages
  // ---------------------------------------------------------------------------

  /** The roles of the chat-model messages exchanged with the agent. */
  datatype Role = System | User | Assistant | Tool

  /** A message body: plain text, or a list of structured parts of type `P`. */
  datatype Content<P> = Text(text: string) | Parts(parts: seq<P>)

  /**
   * A message: its `role`, its `content`, its optional `type` property (`kind`)
   * and every other property, kept as an opaque name/value map.
   */
  datatype Message<P> = Message(role: Role, content: Content<P>, kind: Option<string>, attrs: map<string, string>)

  /** The rewrite applied to one message; `serialize` stands for `JSON.stringify`. */
  function TransformToolMessage<P>(m: Message<P>, serialize: Content<P> -> string): Message<P> {
    if m.role == Tool then m.(role := Assistant, content := Text(serialize(m.content)), kind := Some("tool"))
    else m
  }

  /**
   * `transformToolMessages`: a tool message becomes an assistant message of
   * type "tool" whose content is the serialised original content; every other
   * message, and every other property, is left as it was.
   */
  function TransformToolMessages<P>(messages: seq<Message<P>>, serialize: Content<P> -> string): (r: seq<Message<P>>)
    ensures |r| == |messages|
    ensures forall i :: 0 <= i < |r| && messages[i].role != Tool ==> r[i] == messages[i]
    ensures forall i :: 0 <= i < |r| && messages[i].role == Tool ==>
      && r[i].role == Assistant
      && r[i].kind == Some("tool")
      && r[i].content == Text(serialize(messages[i].content))
      && r[i].attrs == messages[i].attrs
    ensures forall i :: 0 <= i < |r| ==> r[i].role != Tool
  {
    seq(|messages|, i requires 0 <= i < |messages| => TransformToolMessage(messages[i], serialize))
  }

  /** Once no tool message is left, transforming again changes nothing. */
  lemma TransformToolMessagesIdempotent<P>(messages: seq<Message<P>>, serialize: Content<P> -> string)
    ensures TransformToolMessages(TransformToolMessages(messages, serialize), serialize)
         == TransformToolMessages(messages, serialize)
  {
  }

  /** The rewrite is per message: it distributes over concatenation. */
  lemma TransformToolMessagesAppend<P>(a: seq<Message<P>>, b: seq<Message<P>>, serialize: Content<P> -> string)
    ensures TransformToolMessages(a + b, serialize)
         == TransformToolMessages(a, serialize) + TransformToolMessages(b, serialize)
  {
  }
}
