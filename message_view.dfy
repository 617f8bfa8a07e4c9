/** How a chat bubble shows its text (client/src/components/ChatMessage.js):
    the welcome message is split into lines and each line becomes a
    heading, a bullet, a rule, a line break or a paragraph; any other
    message is one paragraph. */
module MessageView {
  import opened Text
  import opened Welcome

  /** The element a line turns into, with the text it shows. */
  datatype Block =
    | H1(text: string)
    | H2(text: string)
    | H3(text: string)
    | Bullet(text: string)
    | Rule
    | Break
    | Paragraph(text: string)

  /** The first matching case of the line classifier, in the source's order. */
  function ClassifyLine(line: string): Block {
    if "# " <= line then H1(line[2..])
    else if "## " <= line then H2(line[3..])
    else if "### " <= line then H3(line[4..])
    else if "\U{2022} " <= line then Bullet(line[2..])
    else if line == "---" then Rule
    else if Trim(line) == [] then Break
    else Paragraph(line)
  }

  /** The markup a block comes from; a line break forgets its white space. */
  function Markup(b: Block): string {
    match b
    case H1(t) => "# " + t
    case H2(t) => "## " + t
    case H3(t) => "### " + t
    case Bullet(t) => "\U{2022} " + t
    case Rule => "---"
    case Break => ""
    case Paragraph(t) => t
  }

  /** What a bubble renders for `content`. */
  function Render(content: string, isWelcome: bool): seq<Block> {
    if isWelcome then
      var lines := Split(content, '\n');
      seq(|lines|, i requires 0 <= i < |lines| => ClassifyLine(lines[i]))
    else [Paragraph(content)]
  }

  /** Each heading case fires exactly on its own prefix: a line starting
      with `## ` is never taken for a level-one heading, nor `### ` for
      level two. */
  lemma ClassifyHeadings(line: string)
    ensures ClassifyLine(line).H1? <==> "# " <= line
    ensures ClassifyLine(line).H2? <==> "## " <= line
    ensures ClassifyLine(line).H3? <==> "### " <= line
  {
    if "## " <= line {
      assert line[1] == '#';
    }
    if "### " <= line {
      assert line[1] == '#' && line[2] == '#';
    }
  }

  /** The remaining cases: a bullet on its prefix, a rule on exactly `---`. */
  lemma ClassifyOthers(line: string)
    ensures ClassifyLine(line).Bullet? <==> "\U{2022} " <= line
    ensures ClassifyLine(line).Rule? <==> line == "---"
  {
    if "\U{2022} " <= line {
      assert line[0] == '\U{2022}';
    }
    if line == "---" {
      assert line[0] == '-';
    }
  }

  /** A line break exactly on a blank line. */
  lemma ClassifyBreak(line: string)
    ensures ClassifyLine(line).Break? <==> IsBlank(line)
  {
    TrimEmptyIffBlank(line);
    if line != [] && IsBlank(line) {
      assert IsSpace(line[0]);
    }
  }

  /** Nothing but blank space is lost: every other line is shown with all
      of its text, and its markup gives the line back. */
  lemma ClassifyLineKeepsText(line: string)
    requires !IsBlank(line)
    ensures Markup(ClassifyLine(line)) == line
  {
    ClassifyHeadings(line);
    ClassifyOthers(line);
    ClassifyBreak(line);
    var b := ClassifyLine(line);
    if b.H1? {
      assert line == line[..2] + line[2..];
    } else if b.H2? {
      assert line == line[..3] + line[3..];
    } else if b.H3? {
      assert line == line[..4] + line[4..];
    } else if b.Bullet? {
      assert line == line[..2] + line[2..];
    }
  }

  /** A welcome bubble has one block per line: one more than the line breaks. */
  lemma RenderCountsLines(content: string)
    ensures |Render(content, true)| == multiset(content)['\n'] + 1
    ensures |Render(content, false)| == 1
  {
    SplitCount(content, '\n');
  }

  /** The markup of a rendered bubble, one line per block. */
  function Markups(blocks: seq<Block>): (r: seq<string>)
    ensures |r| == |blocks|
  {
    seq(|blocks|, i requires 0 <= i < |blocks| => Markup(blocks[i]))
  }

  /** A non-welcome bubble is one paragraph holding the whole text; a
      welcome bubble whose blank lines are all empty gives its text back
      when the blocks' markup is joined by newlines. */
  lemma RenderRoundTrip(content: string)
    requires forall i :: 0 <= i < |Split(content, '\n')| ==>
               IsBlank(Split(content, '\n')[i]) ==> Split(content, '\n')[i] == []
    ensures Render(content, false) == [Paragraph(content)]
    ensures Join(Markups(Render(content, true)), '\n') == content
  {
    var lines := Split(content, '\n');
    var m := Markups(Render(content, true));
    forall i | 0 <= i < |lines|
      ensures m[i] == lines[i]
    {
      if IsBlank(lines[i]) {
        ClassifyBreak(lines[i]);
      } else {
        ClassifyLineKeepsText(lines[i]);
      }
    }
    assert m == lines;
    JoinSplit(content, '\n');
  }

  /** A text whose first line is `# ` and a title renders that title
      first, as a level-one heading. */
  lemma HeadingLineRendersFirst(content: string, title: string)
    requires "# " + title + "\n" <= content && '\n' !in title
    ensures Render(content, true)[0] == H1(title)
  {
    var line := "# " + title;
    assert forall i | 0 <= i < |line| :: line[i] != '\n' by {
      forall i | 0 <= i < |line| ensures line[i] != '\n' {
        if i >= 2 {
          assert line[i] == title[i - 2];
        }
      }
    }
    assert content[..|line|] == line;
    FirstPiece(content, '\n', |line|);
    assert line[2..] == title;
  }

  /** A welcome text, which starts with the heading line, renders the
      assistant's title first, as a level-one heading. */
  lemma WelcomeOpensWithHeading(content: string)
    requires Heading + "\n" <= content
    ensures Render(content, true)[0] == H1(Title)
  {
    assert '\n' !in Title;
    HeadingLineRendersFirst(content, Title);
  }

  /** Before the first separator, `Split` yields the text up to it. */
  lemma FirstPiece(s: string, sep: char, k: nat)
    requires k < |s| && s[k] == sep
    requires forall i :: 0 <= i < k ==> s[i] != sep
    ensures Split(s, sep)[0] == s[..k]
  {
    assert sep in s;
    var j := IndexOf(s, sep);
    assert s[j] == sep;
    forall i | 0 <= i < j
      ensures s[i] != sep
    {
      assert s[..j][i] == s[i];
    }
    assert j == k;
  }
}
