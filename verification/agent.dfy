/**
 * `_format_as_xml`: the few-shot examples of the system prompt, laid out one tag per line
 * between `<examples>` and `</examples>` and joined with newlines.
 */
module Agent {
  /** One example: a user request and the response expected for it. */
  datatype Example = Example(request: string, response: string)

  /** The four lines of one example, its text inserted as is. */
  function ExampleLines(e: Example): (lines: seq<string>)
    ensures |lines| == 4
  {
    ["  <example>", "    <request>" + e.request + "</request>", "    <response>" + e.response + "</response>", "  </example>"]
  }

  /** The example lines of all examples, in order. */
  function Body(examples: seq<Example>): (lines: seq<string>)
    ensures |lines| == 4 * |examples|
    ensures forall i :: 0 <= i < |examples| ==>
      && lines[4 * i] == "  <example>"
      && lines[4 * i + 1] == "    <request>" + examples[i].request + "</request>"
      && lines[4 * i + 2] == "    <response>" + examples[i].response + "</response>"
      && lines[4 * i + 3] == "  </example>"
  {
    if examples == [] then []
    else Body(examples[..|examples| - 1]) + ExampleLines(examples[|examples| - 1])
  }

  /** The lines of the document: the opening tag, four lines per example, the closing tag. */
  function XmlLines(examples: seq<Example>): (lines: seq<string>)
    ensures |lines| == 2 + 4 * |examples|
    ensures lines[0] == "<examples>" && lines[|lines| - 1] == "</examples>"
    ensures forall i :: 0 <= i < |examples| ==>
      && lines[1 + 4 * i] == "  <example>"
      && lines[2 + 4 * i] == "    <request>" + examples[i].request + "</request>"
      && lines[3 + 4 * i] == "    <response>" + examples[i].response + "</response>"
      && lines[4 + 4 * i] == "  </example>"
  {
    ["<examples>"] + Body(examples) + ["</examples>"]
  }

  /** `"\n".join(lines)`. */
  function Join(lines: seq<string>): string {
    if lines == [] then ""
    else if |lines| == 1 then lines[0]
    else lines[0] + "\n" + Join(lines[1..])
  }

  /** `s.split("\n")`: the pieces between newlines, so always at least one. */
  function Split(s: string): (pieces: seq<string>)
    ensures |pieces| >= 1
  {
    if s == [] then [""]
    else
      var rest := Split(s[1..]);
      if s[0] == '\n' then [""] + rest
      else [[s[0]] + rest[0]] + rest[1..]
  }

  /** `_format_as_xml`: the lines built one by one, then joined. */
  method FormatAsXml(examples: seq<Example>) returns (xml: string)
    ensures xml == Join(XmlLines(examples))
  {
    var lines := ["<examples>"];
    for i := 0 to |examples|
      invariant lines == ["<examples>"] + Body(examples[..i])
    {
      assert examples[..i + 1][..i] == examples[..i];
      var example := examples[i];
      lines := lines + ["  <example>"];
      lines := lines + ["    <request>" + example.request + "</request>"];
      lines := lines + ["    <response>" + example.response + "</response>"];
      lines := lines + ["  </example>"];
    }
    assert examples[..|examples|] == examples;
    lines := lines + ["</examples>"];
    xml := Join(lines);
  }

  /** A text without newlines, followed by anything, splits with the text at the head of the first piece. */
  lemma {:induction false} SplitAfterLine(line: string, t: string)
    requires '\n' !in line
    ensures Split(line + t) == [line + Split(t)[0]] + Split(t)[1..]
  {
    if line != [] {
      assert (line + t)[1..] == line[1..] + t;
      SplitAfterLine(line[1..], t);
      assert [line[0]] + (line[1..] + Split(t)[0]) == line + Split(t)[0];
    } else {
      assert line + t == t;
      assert line + Split(t)[0] == Split(t)[0];
      assert Split(t) == [Split(t)[0]] + Split(t)[1..];
    }
  }

  /** Joining lines without newlines and splitting the result gives the lines back. */
  lemma {:induction false} SplitJoin(lines: seq<string>)
    requires lines != []
    requires forall i :: 0 <= i < |lines| ==> '\n' !in lines[i]
    ensures Split(Join(lines)) == lines
  {
    if |lines| == 1 {
      SplitAfterLine(lines[0], "");
      assert lines[0] + "" == lines[0];
    } else {
      SplitJoin(lines[1..]);
      var rest := "\n" + Join(lines[1..]);
      assert lines[0] + "\n" + Join(lines[1..]) == lines[0] + rest;
      SplitAfterLine(lines[0], rest);
      assert rest[1..] == Join(lines[1..]);
      assert lines[0] + "" == lines[0];
      assert lines == [lines[0]] + lines[1..];
    }
  }

  /** A tag line holds no newline when the text inside it holds none. */
  lemma TagLine(open: string, text: string, close: string)
    requires '\n' !in open && '\n' !in text && '\n' !in close
    ensures '\n' !in open + text + close
  {
    forall k | 0 <= k < |open + text + close|
      ensures (open + text + close)[k] != '\n'
    {
      if k < |open| {
        assert (open + text + close)[k] == open[k];
      } else if k < |open| + |text| {
        assert (open + text + close)[k] == text[k - |open|];
      } else {
        assert (open + text + close)[k] == close[k - |open| - |text|];
      }
    }
  }

  /** The example lines hold no newline when no request or response does. */
  lemma {:induction false} BodyHasNoNewline(examples: seq<Example>)
    requires forall i :: 0 <= i < |examples| ==> '\n' !in examples[i].request && '\n' !in examples[i].response
    ensures forall k :: 0 <= k < |Body(examples)| ==> '\n' !in Body(examples)[k]
  {
    if examples != [] {
      var init := examples[..|examples| - 1];
      var e := examples[|examples| - 1];
      BodyHasNoNewline(init);
      TagLine("    <request>", e.request, "</request>");
      TagLine("    <response>", e.response, "</response>");
      var lines := ExampleLines(e);
      assert forall k :: 0 <= k < 4 ==> '\n' !in lines[k];
      assert Body(examples) == Body(init) + lines;
    }
  }

  /**
   * When no request or response contains a newline, the output has exactly 2 + 4·n lines:
   * reading it back line by line gives the layout of `XmlLines`.
   */
  lemma LineCount(examples: seq<Example>)
    requires forall i :: 0 <= i < |examples| ==> '\n' !in examples[i].request && '\n' !in examples[i].response
    ensures Split(Join(XmlLines(examples))) == XmlLines(examples)
    ensures |Split(Join(XmlLines(examples)))| == 2 + 4 * |examples|
  {
    var body := Body(examples);
    BodyHasNoNewline(examples);
    var lines := ["<examples>"] + body + ["</examples>"];
    assert forall k :: 0 <= k < |lines| ==> '\n' !in lines[k] by {
      forall k | 0 <= k < |lines|
        ensures '\n' !in lines[k]
      {
        if 1 <= k < |lines| - 1 {
          assert lines[k] == body[k - 1];
        }
      }
    }
    SplitJoin(lines);
  }

  /** With no examples the output is the two tags alone, and there is no trailing newline. */
  lemma NoExamples()
    ensures Join(XmlLines([])) == "<examples>\n</examples>"
  {
    assert XmlLines([]) == ["<examples>", "</examples>"];
  }
}
