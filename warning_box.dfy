/** `log_warning_box_`: a message is cut into words at spaces, the words are
    laid out on lines that wrap before reaching the box width, and each line
    is centred between two `!` marks; the box is closed above and below by a
    rule of `*` and a rule of spaces. */
module WarningBox {
  import opened Status
  import opened Separated

  /** `max_len`, the width of the box. */
  const MaxLen: nat := 55

  /** The last piece is empty exactly when `s` is empty or ends in a
      space, and then it is not the only piece unless `s` is empty. */
  lemma SplitLast(s: string)
    ensures Split(s, ' ')[|Split(s, ' ')| - 1] == "" <==> |s| == 0 || s[|s| - 1] == ' '
    ensures |s| > 0 && s[|s| - 1] == ' ' ==> Split(s, ' ') == Split(s[..|s| - 1], ' ') + [""]
  {
    if |s| > 0 {
      assert s == s[..|s| - 1] + [s[|s| - 1]];
      SplitSnoc(s[..|s| - 1], s[|s| - 1], ' ');
    }
  }

  /** The words `std::getline(ss, word, ' ')` reads from `msg`: the pieces
      between spaces, except a final empty piece, which `getline` does not
      read. */
  function Words(msg: string): seq<string>
  {
    var parts := Split(msg, ' ');
    if parts[|parts| - 1] == "" then parts[..|parts| - 1] else parts
  }

  /** No word holds a space. */
  lemma WordsNoSpace(msg: string)
    ensures forall i, k :: 0 <= i < |Words(msg)| && 0 <= k < |Words(msg)[i]| ==> Words(msg)[i][k] != ' '
  {
    TokensFree(msg, ' ');
    var parts := Split(msg, ' ');
    var words := Words(msg);
    forall i, k | 0 <= i < |words| && 0 <= k < |words[i]|
      ensures words[i][k] != ' '
    {
      assert words[i] == parts[i];
      assert parts[i] in parts;
      assert words[i][k] in words[i];
    }
  }

  /** An empty message has no words; any other message is its words joined
      by spaces, up to one trailing space; no word holds a space. */
  lemma WordsOfMessage(msg: string)
    ensures msg == [] ==> Words(msg) == []
    ensures msg != [] ==> (|Words(msg)| >= 1 &&
      Join(Words(msg), ' ') == if msg[|msg| - 1] == ' ' then msg[..|msg| - 1] else msg)
    ensures forall i, k :: 0 <= i < |Words(msg)| && 0 <= k < |Words(msg)[i]| ==> Words(msg)[i][k] != ' '
  {
    WordsNoSpace(msg);
    SplitLast(msg);
    var parts := Split(msg, ' ');
    var n := |parts|;
    if msg != [] && msg[|msg| - 1] == ' ' {
      assert parts == Split(msg[..|msg| - 1], ' ') + [""];
      assert parts[..n - 1] == Split(msg[..|msg| - 1], ' ');
      JoinSplit(msg[..|msg| - 1], ' ');
    } else {
      JoinSplit(msg, ' ');
    }
  }

  /** The lines laid out so far, and the line being filled. */
  datatype Layout = Layout(done: seq<string>, line: string)

  /** One turn of the `getline` loop: a space goes after a non-empty line;
      when the line and the word leave fewer than four columns of the box,
      the line is emitted and the word starts the next one. */
  function Place(st: Layout, word: string): Layout
  {
    var line := if |st.line| > 0 then st.line + " " else st.line;
    if |line| + |word| + 4 >= MaxLen then Layout(st.done + [line], word)
    else Layout(st.done, line + word)
  }

  /** The layout after placing `words` in order. */
  function Lay(words: seq<string>): Layout
  {
    if |words| == 0 then Layout([], "") else Place(Lay(words[..|words| - 1]), words[|words| - 1])
  }

  /** The texts of the box's lines: the lines emitted in the loop, then the
      last line. */
  function Texts(words: seq<string>): seq<string>
  {
    var st := Lay(words);
    st.done + [st.line]
  }

  /** The texts one after the other. */
  function Concat(texts: seq<string>): string
  {
    if |texts| == 0 then "" else Concat(texts[..|texts| - 1]) + texts[|texts| - 1]
  }

  /** With no empty word, the laid-out text, read line after line, is the
      words joined by spaces, and the line being filled is not empty. */
  lemma {:induction false} LayKeepsText(words: seq<string>)
    requires |words| >= 1
    requires forall i :: 0 <= i < |words| ==> |words[i]| > 0
    ensures Concat(Lay(words).done) + Lay(words).line == Join(words, ' ')
    ensures |Lay(words).line| > 0
  {
    var init := words[..|words| - 1];
    var w := words[|words| - 1];
    if |init| == 0 {
      assert Concat([""]) == Concat([]) + "";
    } else {
      LayKeepsText(init);
      assert words == init + [w];
      JoinSnoc(init, w, ' ');
      var st := Lay(init);
      var line := st.line + " ";
      assert Concat(st.done + [line]) == Concat(st.done) + line by {
        assert (st.done + [line])[..|st.done|] == st.done;
      }
    }
  }

  /** No text is lost or reordered: with no empty word, the texts of the
      box's lines, read one after the other, are the words joined by
      spaces. */
  lemma TextsKeepWords(words: seq<string>)
    requires |words| >= 1
    requires forall i :: 0 <= i < |words| ==> |words[i]| > 0
    ensures Concat(Texts(words)) == Join(words, ' ')
  {
    LayKeepsText(words);
    var st := Lay(words);
    assert (st.done + [st.line])[..|st.done|] == st.done;
  }

  /** With words of at most 50 characters, every emitted line has at most
      51 characters and the line being filled at most 50. */
  lemma {:induction false} LayWidth(words: seq<string>)
    requires forall i :: 0 <= i < |words| ==> |words[i]| <= MaxLen - 5
    ensures forall i :: 0 <= i < |Lay(words).done| ==> |Lay(words).done[i]| <= MaxLen - 4
    ensures |Lay(words).line| <= MaxLen - 5
  {
    if |words| > 0 {
      LayWidth(words[..|words| - 1]);
    }
  }

  /** C's `/ 2` on an `int`: the quotient truncated toward zero. */
  function Half(x: int): int
  {
    if x >= 0 then x / 2 else -((-x) / 2)
  }

  /** `pad`, `pad_l` and `pad_r` as the source computes them for a line of
      `len` characters. */
  function PadsAsWritten(len: nat): (int, int)
  {
    var pad := MaxLen - len - 1;
    var h := Half(pad);
    var padL := if h > 1 then h else 1;
    var padR := if h > 0 then h else 0;
    (padL, if pad - 2 * h == 0 then padR - 1 else padR)
  }

  /** The right padding comes out negative exactly for lines of an even
      length of at least 54 characters. */
  lemma PadsAsWrittenNegative(len: nat)
    ensures PadsAsWritten(len).0 >= 1
    ensures PadsAsWritten(len).1 < 0 <==> len >= MaxLen - 1 && len % 2 == 0
  {
    var pad := MaxLen - len - 1;
    if pad < 0 {
      assert Half(pad) <= 0;
      assert pad - 2 * Half(pad) == 0 <==> (-pad) % 2 == 0;
    }
  }

  /** `n` spaces. */
  function Spaces(n: nat): (s: string)
    ensures |s| == n && forall i :: 0 <= i < n ==> s[i] == ' '
  {
    seq(n, _ => ' ')
  }

  /** A line framed as the source frames it; `None` where the source asks
      for a `std::string` of `size_t(-1)` characters, which throws. */
  function FrameAsWritten(text: string): Option<string>
  {
    PadsAsWrittenNegative(|text|);
    var (padL, padR) := PadsAsWritten(|text|);
    if padR < 0 then None else Some("!" + Spaces(padL) + text + Spaces(padR) + "!")
  }

  /** The paddings with the right padding kept at zero or more: the framed
      line is the box width when the text fits, and three characters
      longer than the text otherwise; the text is centred, with at most one
      more space on its left. */
  function Pads(len: nat): (pads: (nat, nat))
    ensures 2 + pads.0 + pads.1 + len == if len + 3 <= MaxLen then MaxLen else len + 3
    ensures pads.1 <= pads.0 <= pads.1 + 1
  {
    PadsAsWrittenNegative(len);
    var (padL, padR) := PadsAsWritten(len);
    (padL, if padR < 0 then 0 else padR)
  }

  /** A line of text framed between `!` marks. */
  function Frame(text: string): (row: string)
    ensures |row| == if |text| + 3 <= MaxLen then MaxLen else |text| + 3
    ensures row[0] == '!' && row[|row| - 1] == '!'
    ensures row[1 + Pads(|text|).0..1 + Pads(|text|).0 + |text|] == text
    ensures forall i :: 1 <= i < 1 + Pads(|text|).0 || 1 + Pads(|text|).0 + |text| <= i < |row| - 1 ==> row[i] == ' '
  {
    var (padL, padR) := Pads(|text|);
    var row := "!" + Spaces(padL) + text + Spaces(padR) + "!";
    assert row[1 + padL..1 + padL + |text|] == text;
    row
  }

  /** Where the source's framing does not throw, it is `Frame`. */
  lemma FrameAgrees(text: string)
    ensures FrameAsWritten(text) == None <==> |text| >= MaxLen - 1 && |text| % 2 == 0
    ensures FrameAsWritten(text) != None ==> FrameAsWritten(text) == Some(Frame(text))
  {
    PadsAsWrittenNegative(|text|);
  }

  /** A log line: a rule of one repeated character, or a line of text. */
  datatype Row = Rule(c: char) | Text(s: string)

  /** Every text framed, in order. */
  function FrameAll(texts: seq<string>): seq<Row>
  {
    if |texts| == 0 then [] else FrameAll(texts[..|texts| - 1]) + [Text(Frame(texts[|texts| - 1]))]
  }

  /** The log lines of the box for `msg`, with the right padding kept at
      zero or more. */
  function BoxRows(msg: string): seq<Row>
  {
    [Rule(' '), Rule('*')] + FrameAll(Texts(Words(msg))) + [Rule('*'), Rule(' ')]
  }

  /** The texts framed as the source frames them; `None` once a framing
      throws. */
  function FrameAllAsWritten(texts: seq<string>): Option<seq<Row>>
  {
    if |texts| == 0 then Some([])
    else match FrameAllAsWritten(texts[..|texts| - 1])
      case None => None
      case Some(rows) =>
        match FrameAsWritten(texts[|texts| - 1])
        case None => None
        case Some(row) => Some(rows + [Text(row)])
  }

  /** The log lines of the box for `msg` as the source computes them;
      `None` where it throws. */
  function BoxAsWritten(msg: string): Option<seq<Row>>
  {
    match FrameAllAsWritten(Texts(Words(msg)))
    case None => None
    case Some(rows) => Some([Rule(' '), Rule('*')] + rows + [Rule('*'), Rule(' ')])
  }

  /** A message made of one word of 54 characters: the source emits an
      empty framed line, then asks for a right padding of -1 on the word's
      line and throws, where the corrected framing gives a line of 57
      characters. */
  lemma LongWordThrows()
    ensures var msg := seq(MaxLen - 1, _ => 'x');
      && Texts(Words(msg)) == ["", msg]
      && BoxAsWritten(msg) == None
      && |Frame(msg)| == MaxLen + 2
  {
    var msg := seq(MaxLen - 1, _ => 'x');
    SplitPiece(msg, ' ');
    assert Words(msg) == [msg];
    assert [msg][..0] == [];
    assert Lay([msg]) == Place(Layout([], ""), msg);
    assert Lay([msg]) == Layout([""], msg);
    var texts := Texts([msg]);
    assert texts == ["", msg];
    FrameAgrees("");
    FrameAgrees(msg);
    assert texts[..1] == [""];
    assert FrameAllAsWritten(texts[..1]) != None by {
      assert texts[..1][..0] == [];
    }
  }

  /** With words of at most 50 characters, which the source's only message
      has, every framed line of the box is exactly the box width, and the
      source's framing never throws. */
  lemma ShortWordsFit(msg: string)
    requires forall i :: 0 <= i < |Words(msg)| ==> |Words(msg)[i]| <= MaxLen - 5
    ensures forall i :: 0 <= i < |Texts(Words(msg))| ==> |Frame(Texts(Words(msg))[i])| == MaxLen
    ensures BoxAsWritten(msg) == Some(BoxRows(msg))
  {
    var texts := Texts(Words(msg));
    LayWidth(Words(msg));
    assert forall i :: 0 <= i < |texts| ==> |texts[i]| <= MaxLen - 4;
    ShortTextsAgree(texts);
  }

  /** On texts that fit, the source's framing is `FrameAll`. */
  lemma {:induction false} ShortTextsAgree(texts: seq<string>)
    requires forall i :: 0 <= i < |texts| ==> |texts[i]| <= MaxLen - 4
    ensures FrameAllAsWritten(texts) == Some(FrameAll(texts))
  {
    if |texts| > 0 {
      ShortTextsAgree(texts[..|texts| - 1]);
      FrameAgrees(texts[|texts| - 1]);
    }
  }

  /** Placing one more word extends the layout by one `Place`. */
  lemma LayStep(words: seq<string>, i: nat)
    requires i < |words|
    ensures Lay(words[..i + 1]) == Place(Lay(words[..i]), words[i])
  {
    assert words[..i + 1][..i] == words[..i];
  }

  lemma FrameAllAppend(texts: seq<string>, text: string)
    ensures FrameAll(texts + [text]) == FrameAll(texts) + [Text(Frame(text))]
  {
    assert (texts + [text])[..|texts|] == texts;
  }

  /** The rows placed by the loop, the last line framed, and the closing
      rules make up the box. */
  lemma BoxAssembly(words: seq<string>)
    ensures [Rule(' '), Rule('*')] + FrameAll(Lay(words).done) + [Text(Frame(Lay(words).line))] + [Rule('*'), Rule(' ')]
         == [Rule(' '), Rule('*')] + FrameAll(Texts(words)) + [Rule('*'), Rule(' ')]
  {
    FrameAllAppend(Lay(words).done, Lay(words).line);
  }

  /** The `getline` loop of `log_warning_box_`: places each word, framing
      and emitting each full line after the opening rules; returns the
      rows so far and the line still being filled. */
  method PlaceWords(words: seq<string>) returns (rows: seq<Row>, line: string)
    ensures rows == [Rule(' '), Rule('*')] + FrameAll(Lay(words).done)
    ensures line == Lay(words).line
  {
    rows := [Rule(' '), Rule('*')];
    line := "";
    ghost var done: seq<string> := [];
    var i := 0;
    while i < |words|
      invariant 0 <= i <= |words|
      invariant Lay(words[..i]) == Layout(done, line)
      invariant rows == [Rule(' '), Rule('*')] + FrameAll(done)
    {
      LayStep(words, i);
      var word := words[i];
      if |line| > 0 {
        line := line + " ";
      }
      if |line| + |word| + 4 >= MaxLen {
        FrameAllAppend(done, line);
        rows := rows + [Text(Frame(line))];
        done := done + [line];
        line := "";
      }
      line := line + word;
      i := i + 1;
    }
    assert words[..|words|] == words;
  }

  /** `log_warning_box_` with the right padding kept at zero or more: the
      words of the message are placed, then the last line is framed and the
      closing rules follow. */
  method LogWarningBox(msg: string) returns (rows: seq<Row>)
    ensures rows == BoxRows(msg)
  {
    var words := Words(msg);
    var line;
    rows, line := PlaceWords(words);
    BoxAssembly(words);
    rows := rows + [Text(Frame(line))] + [Rule('*'), Rule(' ')];
  }
}
