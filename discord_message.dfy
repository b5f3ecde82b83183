/** `formatDiscordMessage`: the text posted to the chat webhook. It is a
    fenced code block holding a bordered "User Info" table whose width
    follows the longest contact field, then a heading and one line per
    entry: `**Entry k:** text` for a non-empty entry, an empty line
    otherwise. The message is the template's sixteen lines joined by `\n`.

    Note the table is not rectangular as written: borders are `w + 4`
    characters wide, the title line `w + 2` and the field lines `w + 3`. */
module DiscordMessage {
  import opened Base
  import opened Text
  import opened Records

  /** `maxWidth`: the longest of name, email and phone, but at least 30,
      plus 10. (The per-field minima of 20, 20 and 15 never matter, since
      30 exceeds them all.) */
  function TableWidth(u: ContactInfo): (w: nat)
    ensures w >= 40
    ensures w >= |u.fullName| + 10 && w >= |u.email| + 10 && w >= |u.phone| + 10
  {
    var maxNameLength := Max(|u.fullName|, 20);
    var maxEmailLength := Max(|u.email|, 20);
    var maxPhoneLength := Max(|u.phone|, 15);
    Max(Max(Max(maxNameLength, maxEmailLength), maxPhoneLength), 30) + 10
  }

  /** The width is exactly 40 or exactly ten more than one of the fields:
      it is no wider than it needs to be. */
  lemma TableWidthIsTight(u: ContactInfo)
    ensures var w := TableWidth(u);
            w == 40 || w == |u.fullName| + 10 || w == |u.email| + 10 || w == |u.phone| + 10
  {
  }

  /** `'+' + '-'.repeat(w + 2) + '+'`. */
  function Border(w: nat): (r: string)
    ensures |r| == w + 4
  {
    ['+'] + Repeat('-', w + 2) + ['+']
  }

  /** A border is a run of dashes between two corners. */
  lemma BorderShape(w: nat)
    ensures var r := Border(w);
            && r[0] == '+' && r[w + 3] == '+'
            && forall k :: 0 < k < w + 3 ==> r[k] == '-'
  {
    var r := Border(w);
    forall k | 0 < k < w + 3 ensures r[k] == '-' {
      assert r[k] == Repeat('-', w + 2)[k - 1];
    }
  }

  /** The title row: `User Info` between `Math.floor((w - 9) / 2)` spaces
      and `Math.ceil((w - 9) / 2)` spaces, inside two bars. */
  function TitleLine(w: nat): (r: string)
    requires w >= 9
    ensures |r| == w + 2
  {
    var floorHalf := (w - 9) / 2;
    var ceilHalf := (w - 9 + 1) / 2;
    ['|'] + Repeat(' ', floorHalf) + "User Info" + Repeat(' ', ceilHalf) + ['|']
  }

  /** The title is centred: the padding on its right is the padding on its
      left or one space more, and together they fill the row. */
  lemma TitleCentred(w: nat)
    requires w >= 9
    ensures var left := (w - 9) / 2;
            var right := w - 9 - left;
            && left <= right <= left + 1
            && TitleLine(w) == ['|'] + Repeat(' ', left) + "User Info" + Repeat(' ', right) + ['|']
  {
  }

  /** A field row: the caption, the value padded with spaces to `w - 7`
      characters (never cut short), and a closing bar. */
  function FieldLine(caption: string, value: string, w: nat): (r: string)
    ensures |r| == |caption| + (if |value| <= w - 7 then w - 7 else |value|) + 1
  {
    caption + PadEnd(value, w - 7) + ['|']
  }

  /** The caption, then the whole value, then spaces up to the bar. */
  lemma FieldLineLayout(caption: string, value: string, w: nat)
    ensures var r := FieldLine(caption, value, w);
            && r[..|caption|] == caption
            && r[|caption|..|caption| + |value|] == value
            && (forall k :: |caption| + |value| <= k < |r| - 1 ==> r[k] == ' ')
            && r[|r| - 1] == '|'
  {
    var padded := PadEnd(value, w - 7);
    var r := FieldLine(caption, value, w);
    assert r == caption + padded + ['|'];
    assert r[|caption|..|caption| + |value|] == padded[..|value|];
    forall k | |caption| + |value| <= k < |r| - 1 ensures r[k] == ' ' {
      assert r[k] == padded[k - |caption|];
    }
  }

  /** `entries.entryN ? `**Entry N:** ${entries.entryN}` : ''`. */
  function EntryLine(number: char, text: string): (r: string)
    ensures text == [] <==> r == []
    ensures text != [] ==> r == "**Entry " + [number] + ":** " + text
  {
    if text != [] then "**Entry " + [number] + ":** " + text else ""
  }

  /** The fence lines around the table and the captions of its field rows. */
  const Fence := "```"
  const NameCaption := "| Name:  "
  const EmailCaption := "| Email: "
  const PhoneCaption := "| Phone: "

  /** The first nine lines of the template: the fenced table. */
  function TableLines(u: ContactInfo): (lines: seq<string>)
    ensures |lines| == 9
  {
    var w := TableWidth(u);
    var topBorder := Border(w);
    var separator := Border(w);
    [Fence, topBorder, TitleLine(w), separator]
    + [FieldLine(NameCaption, u.fullName, w), FieldLine(EmailCaption, u.email, w), FieldLine(PhoneCaption, u.phone, w)]
    + [topBorder, Fence]
  }

  /** The last seven lines of the template: a blank line, the heading and
      one line per entry. */
  function EntryLines(e: Entries): (lines: seq<string>)
    ensures |lines| == 7
  {
    [ "",
      "**Full Entries:**",
      EntryLine('1', e.entry1),
      EntryLine('2', e.entry2),
      EntryLine('3', e.entry3),
      EntryLine('4', e.entry4),
      EntryLine('5', e.entry5) ]
  }

  /** The sixteen lines of the template, top to bottom. */
  function MessageLines(u: ContactInfo, e: Entries): (lines: seq<string>)
    ensures |lines| == 16
  {
    TableLines(u) + EntryLines(e)
  }

  /** Lines joined with `\n` between them, as the template literal does. */
  function JoinLines(lines: seq<string>): (r: string)
    ensures |lines| > 0 ==> lines[0] <= r
  {
    if |lines| == 0 then ""
    else if |lines| == 1 then lines[0]
    else JoinLines(lines[..|lines| - 1]) + "\n" + lines[|lines| - 1]
  }

  /** The message opens the code fence and ends with the fifth entry's line. */
  function FormatDiscordMessage(u: ContactInfo, e: Entries): (r: string)
    ensures Fence <= r
    ensures var last := EntryLine('5', e.entry5);
            |last| <= |r| && r[|r| - |last|..] == last
  {
    JoinLines(MessageLines(u, e))
  }

  /** A field row under a nine-character caption is `w + 3` wide and shows
      the whole field when the field is at most `w - 10` long. */
  lemma FieldRowGeometry(caption: string, value: string, w: nat)
    requires |caption| == 9 && |value| + 10 <= w
    ensures |FieldLine(caption, value, w)| == w + 3
    ensures FieldLine(caption, value, w)[9..9 + |value|] == value
  {
    FieldLineLayout(caption, value, w);
  }

  /** Each table row by position. */
  lemma TableRows(u: ContactInfo)
    ensures var w := TableWidth(u);
            var lines := TableLines(u);
            && lines[0] == Fence && lines[8] == Fence
            && lines[1] == Border(w) && lines[3] == Border(w) && lines[7] == Border(w)
            && lines[2] == TitleLine(w)
            && lines[4] == FieldLine(NameCaption, u.fullName, w)
            && lines[5] == FieldLine(EmailCaption, u.email, w)
            && lines[6] == FieldLine(PhoneCaption, u.phone, w)
  {
  }

  /** The table's geometry: borders `w + 4` wide, the title row `w + 2`,
      each field row `w + 3` with the field shown in full after its
      nine-character caption. */
  lemma TableGeometry(u: ContactInfo)
    ensures var w := TableWidth(u);
            var lines := TableLines(u);
            && |lines[1]| == w + 4 && lines[3] == lines[1] && lines[7] == lines[1]
            && |lines[2]| == w + 2
            && |lines[4]| == w + 3 && lines[4][9..9 + |u.fullName|] == u.fullName
            && |lines[5]| == w + 3 && lines[5][9..9 + |u.email|] == u.email
            && |lines[6]| == w + 3 && lines[6][9..9 + |u.phone|] == u.phone
  {
    var w := TableWidth(u);
    TableRows(u);
    FieldRowGeometry(NameCaption, u.fullName, w);
    FieldRowGeometry(EmailCaption, u.email, w);
    FieldRowGeometry(PhoneCaption, u.phone, w);
  }

  function EntryNumber(f: EntryField): (n: nat)
    ensures 1 <= n <= 5
  {
    match f
    case Entry1 => 1
    case Entry2 => 2
    case Entry3 => 3
    case Entry4 => 4
    case Entry5 => 5
  }

  /** Entry N is always the line at position N + 1 of the entry block (line
      N + 10 of the message), whatever the other entries hold: printed with
      its caption when non-empty (whitespace-only text included), left as an
      empty line when empty. */
  lemma EntryLinesInOrder(e: Entries, f: EntryField)
    ensures var line := EntryLines(e)[1 + EntryNumber(f)];
            var text := e.Field(f);
            && (text != [] ==> line == "**Entry " + [('0' as int + EntryNumber(f)) as char] + ":** " + text)
            && (text == [] ==> line == [])
  {
  }

  function CountChar(s: string, c: char): nat
  {
    if s == [] then 0 else CountChar(s[..|s| - 1], c) + (if s[|s| - 1] == c then 1 else 0)
  }

  lemma {:induction false} CountCharAppend(a: string, b: string, c: char)
    ensures CountChar(a + b, c) == CountChar(a, c) + CountChar(b, c)
    decreases |b|
  {
    if b != [] {
      assert (a + b)[..|a + b| - 1] == a + b[..|b| - 1];
      CountCharAppend(a, b[..|b| - 1], c);
    } else {
      assert a + b == a;
    }
  }

  lemma {:induction false} CountCharAbsent(s: string, c: char)
    requires c !in s
    ensures CountChar(s, c) == 0
    decreases |s|
  {
    if s != [] {
      CountCharAbsent(s[..|s| - 1], c);
    }
  }

  /** Joining `n` lines that hold no line break puts exactly `n - 1` line
      breaks into the text. */
  lemma {:induction false} JoinLinesBreaks(lines: seq<string>)
    requires |lines| > 0
    requires forall i :: 0 <= i < |lines| ==> '\n' !in lines[i]
    ensures CountChar(JoinLines(lines), '\n') == |lines| - 1
    decreases |lines|
  {
    if |lines| == 1 {
      CountCharAbsent(lines[0], '\n');
    } else {
      var init := lines[..|lines| - 1];
      var last := lines[|lines| - 1];
      JoinLinesBreaks(init);
      CountCharAppend(JoinLines(init), "\n", '\n');
      CountCharAppend(JoinLines(init) + "\n", last, '\n');
      CountCharAbsent(last, '\n');
      assert CountChar("\n", '\n') == 1 by {
        assert "\n"[..0] == [];
      }
    }
  }

  lemma FieldLineBreakFree(caption: string, value: string, w: nat)
    requires '\n' !in caption && '\n' !in value
    ensures '\n' !in FieldLine(caption, value, w)
  {
    var r := FieldLine(caption, value, w);
    FieldLineLayout(caption, value, w);
    forall k | 0 <= k < |r| ensures r[k] != '\n' {
      if k < |caption| {
        assert r[k] == r[..|caption|][k];
      } else if k < |caption| + |value| {
        assert r[k] == r[|caption|..|caption| + |value|][k - |caption|];
      }
    }
  }

  lemma BorderAndTitleBreakFree(w: nat)
    requires w >= 9
    ensures '\n' !in Border(w) && '\n' !in TitleLine(w)
  {
    BorderShape(w);
  }

  /** The table rows hold no line break when the contact fields hold none. */
  lemma TableRowsBreakFree(u: ContactInfo)
    requires '\n' !in u.fullName && '\n' !in u.email && '\n' !in u.phone
    ensures forall i :: 0 <= i < 9 ==> '\n' !in TableLines(u)[i]
  {
    var w := TableWidth(u);
    TableRows(u);
    BorderAndTitleBreakFree(w);
    FieldLineBreakFree(NameCaption, u.fullName, w);
    FieldLineBreakFree(EmailCaption, u.email, w);
    FieldLineBreakFree(PhoneCaption, u.phone, w);
  }

  /** The heading and entry lines hold no line break when the entries hold none. */
  lemma EntryRowsBreakFree(e: Entries)
    requires '\n' !in e.entry1 && '\n' !in e.entry2 && '\n' !in e.entry3
    requires '\n' !in e.entry4 && '\n' !in e.entry5
    ensures forall i :: 0 <= i < 7 ==> '\n' !in EntryLines(e)[i]
  {
  }

  /** When no contact field and no entry holds a line break, every message
      has exactly fifteen line breaks: the number of lines does not depend
      on the input. */
  lemma MessageBreakCount(u: ContactInfo, e: Entries)
    requires '\n' !in u.fullName && '\n' !in u.email && '\n' !in u.phone
    requires '\n' !in e.entry1 && '\n' !in e.entry2 && '\n' !in e.entry3
    requires '\n' !in e.entry4 && '\n' !in e.entry5
    ensures CountChar(FormatDiscordMessage(u, e), '\n') == 15
  {
    TableRowsBreakFree(u);
    EntryRowsBreakFree(e);
    var lines := MessageLines(u, e);
    forall i | 0 <= i < 16 ensures '\n' !in lines[i] {
      if i < 9 {
        assert lines[i] == TableLines(u)[i];
      } else {
        assert lines[i] == EntryLines(e)[i - 9];
      }
    }
    JoinLinesBreaks(lines);
  }

  lemma JoinLinesSnoc(lines: seq<string>, last: string)
    requires lines != []
    ensures JoinLines(lines + [last]) == JoinLines(lines) + "\n" + last
  {
    assert (lines + [last])[..|lines|] == lines;
  }

  /** Joined lines whose last three are empty end in three line breaks. */
  lemma JoinLinesEmptyTail(lines: seq<string>)
    requires |lines| >= 4
    requires lines[|lines| - 3] == "" && lines[|lines| - 2] == "" && lines[|lines| - 1] == ""
    ensures var m := JoinLines(lines);
            |m| >= 3 && m[|m| - 3..] == "\n\n\n"
  {
    var n := |lines|;
    var init := lines[..n - 3];
    assert lines == init + [""] + [""] + [""];
    JoinLinesSnoc(init, "");
    JoinLinesSnoc(init + [""], "");
    JoinLinesSnoc(init + [""] + [""], "");
  }

  /** Empty trailing entries are not dropped: with entries 3 to 5 empty the
      message still ends in three line breaks, one per omitted entry. */
  lemma EmptyEntriesKeepTheirLines(u: ContactInfo, e: Entries)
    requires e.entry3 == "" && e.entry4 == "" && e.entry5 == ""
    ensures var m := FormatDiscordMessage(u, e);
            |m| >= 3 && m[|m| - 3..] == "\n\n\n"
  {
    var lines := MessageLines(u, e);
    var tail := EntryLines(e);
    assert tail[4] == "" && tail[5] == "" && tail[6] == "";
    assert lines[13] == tail[4] && lines[14] == tail[5] && lines[15] == tail[6];
    JoinLinesEmptyTail(lines);
  }
}
