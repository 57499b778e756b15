/**
 * `renderOutput` of src/index.ts: the console block listing every watched market.
 * Terminal colours are abstract styles; numbers stay numbers, since their decimal
 * spelling is JavaScript's and never contains a line break.
 */
module Render {
  import opened Wrappers
  import opened Models

  /** The chalk styles the block uses. */
  datatype Style = Plain | WhiteBrightBold | Dim | GreenBright | RedBright | White

  /** A run of literal text, or a number printed in JavaScript's way. */
  datatype Token = Text(s: string) | Number(x: real)

  /** Tokens printed in one style. */
  datatype Piece = Piece(style: Style, tokens: seq<Token>)

  /** The colour of a market's price, chosen by its state. */
  function StateStyle(s: PriceState): Style
  {
    match s
    case Unknown => Dim
    case AboveThreshold => GreenBright
    case BelowThreshold => RedBright
    case AtThreshold => White
  }

  /** Each state has its own colour, so the price colour tells the state. */
  lemma StateStyleInjective(s: PriceState, t: PriceState)
    requires StateStyle(s) == StateStyle(t)
    ensures s == t
  {
  }

  /** `padEnd(width, ' ')`: blanks are appended up to `width`; a longer string is kept. */
  function PadEnd(s: string, width: nat): (r: string)
    ensures |r| == if |s| < width then width else |s|
    ensures r[..|s|] == s
    ensures forall i :: |s| <= i < |r| ==> r[i] == ' '
  {
    if |s| < width then s + seq(width - |s|, _ => ' ') else s
  }

  /**
   * How a price is printed. A market with no trade yet holds NaN in the program, which
   * `?? 'NA'` does not replace, so it is printed as "NaN".
   */
  function PriceToken(p: Option<real>): Token
  {
    match p
    case Some(x) => Number(x)
    case None => Text("NaN")
  }

  /** The line of one market: padded name, price in the state's colour, dim threshold. */
  function MarketLine(name: string, r: MarketRecord): seq<Piece>
  {
    [ Piece(WhiteBrightBold, [Text(PadEnd(name, 10))]), Piece(Plain, [Text(" ")]),
      Piece(StateStyle(r.state), [PriceToken(r.price)]), Piece(Plain, [Text(" ")]),
      Piece(Dim, [Text("("), Number(r.threshold), Text(")")]), Piece(Plain, [Text("\n")]) ]
  }

  /** The number of pieces in one market's line. */
  const LINE_PIECES := 6

  /** The block for the markets `names`, in that order. */
  function Rendered(names: seq<string>, data: map<string, MarketRecord>): (out: seq<Piece>)
    requires forall n :: n in names ==> n in data
    ensures |out| == LINE_PIECES * |names|
    decreases |names|
  {
    if names == [] then []
    else
      var last := names[|names| - 1];
      Rendered(names[..|names| - 1], data) + MarketLine(last, data[last])
  }

  /** The loop of `renderOutput`: one line per key of `data`, in key order. */
  method RenderOutput(names: seq<string>, data: map<string, MarketRecord>) returns (output: seq<Piece>)
    requires forall n :: n in names ==> n in data
    ensures output == Rendered(names, data)
  {
    output := [];
    for i := 0 to |names|
      invariant output == Rendered(names[..i], data)
    {
      var name := names[i];
      output := output + [Piece(WhiteBrightBold, [Text(PadEnd(name, 10))]), Piece(Plain, [Text(" ")])];
      var color: Style;
      if data[name].state == Unknown {
        color := Dim;
      } else if data[name].state == AboveThreshold {
        color := GreenBright;
      } else if data[name].state == BelowThreshold {
        color := RedBright;
      } else {
        color := White;
      }
      output := output + [Piece(color, [PriceToken(data[name].price)]), Piece(Plain, [Text(" ")]),
                          Piece(Dim, [Text("("), Number(data[name].threshold), Text(")")]),
                          Piece(Plain, [Text("\n")])];
      assert names[..i + 1][..i] == names[..i];
    }
    assert names[..|names|] == names;
  }

  /** The number of times `c` occurs in `s`. */
  function Occurrences(s: string, c: char): (k: nat)
    ensures k <= |s|
  {
    if s == [] then 0 else (if s[0] == c then 1 else 0) + Occurrences(s[1..], c)
  }

  function TokenBreaks(t: Token): nat
  {
    match t
    case Text(s) => Occurrences(s, '\n')
    case Number(_) => 0
  }

  function TokensBreaks(ts: seq<Token>): nat
  {
    if ts == [] then 0 else TokenBreaks(ts[0]) + TokensBreaks(ts[1..])
  }

  /**
   * `output.split('\n').length - 1`: the number of line breaks printed, which is how many
   * lines the cursor must move up to overwrite the block.
   */
  function LineCount(out: seq<Piece>): nat
    decreases |out|
  {
    if out == [] then 0 else LineCount(out[..|out| - 1]) + TokensBreaks(out[|out| - 1].tokens)
  }

  /** The number of line breaks inside the market names themselves. */
  function NameBreaks(names: seq<string>): nat
    decreases |names|
  {
    if names == [] then 0 else NameBreaks(names[..|names| - 1]) + Occurrences(names[|names| - 1], '\n')
  }

  lemma {:induction false} OccurrencesAppend(a: string, b: string, c: char)
    ensures Occurrences(a + b, c) == Occurrences(a, c) + Occurrences(b, c)
  {
    if a != [] {
      assert (a + b)[1..] == a[1..] + b;
      OccurrencesAppend(a[1..], b, c);
    } else {
      assert a + b == b;
    }
  }

  lemma {:induction false} OccurrencesBlank(n: nat, c: char)
    requires c != ' '
    ensures Occurrences(seq(n, _ => ' '), c) == 0
  {
    if n > 0 {
      assert seq(n, _ => ' ')[1..] == seq(n - 1, _ => ' ');
      OccurrencesBlank(n - 1, c);
    }
  }

  lemma {:induction false} LineCountAppend(a: seq<Piece>, b: seq<Piece>)
    ensures LineCount(a + b) == LineCount(a) + LineCount(b)
    decreases |b|
  {
    if b != [] {
      assert (a + b)[..|a + b| - 1] == a + b[..|b| - 1];
      LineCountAppend(a, b[..|b| - 1]);
    } else {
      assert a + b == a;
    }
  }

  /** A market's line ends in one line break, plus any the name itself contains. */
  lemma MarketLineHeight(name: string, r: MarketRecord)
    ensures LineCount(MarketLine(name, r)) == Occurrences(name, '\n') + 1
  {
    var line := MarketLine(name, r);
    if |name| < 10 {
      OccurrencesAppend(name, seq(10 - |name|, _ => ' '), '\n');
      OccurrencesBlank(10 - |name|, '\n');
    }
    TextBreaks(PadEnd(name, 10));
    TextBreaks(" ");
    TextBreaks("\n");
    PriceBreaks(r.price);
    ThresholdBreaks(r.threshold);
    SixPieces(line);
  }

  lemma SixPieces(ps: seq<Piece>)
    requires |ps| == 6
    ensures LineCount(ps) == TokensBreaks(ps[0].tokens) + TokensBreaks(ps[1].tokens) + TokensBreaks(ps[2].tokens)
                             + TokensBreaks(ps[3].tokens) + TokensBreaks(ps[4].tokens) + TokensBreaks(ps[5].tokens)
  {
    assert ps[..5][..4] == ps[..4];
    assert ps[..4][..3] == ps[..3];
    assert ps[..3][..2] == ps[..2];
    assert ps[..2][..1] == ps[..1];
    assert ps[..1][..0] == [];
  }

  lemma TextBreaks(s: string)
    ensures TokensBreaks([Text(s)]) == Occurrences(s, '\n')
  {
  }

  lemma PriceBreaks(p: Option<real>)
    ensures TokensBreaks([PriceToken(p)]) == 0
  {
  }

  lemma ThresholdBreaks(x: real)
    ensures TokensBreaks([Text("("), Number(x), Text(")")]) == 0
  {
    var ts := [Text("("), Number(x), Text(")")];
    assert Occurrences("(", '\n') == 0 by { assert "("[1..] == []; }
    assert Occurrences(")", '\n') == 0 by { assert ")"[1..] == []; }
    assert TokensBreaks([Text(")")]) == 0 by { assert [Text(")")][1..] == []; }
    assert TokensBreaks([Number(x), Text(")")]) == 0 by { assert [Number(x), Text(")")][1..] == [Text(")")]; }
    assert ts[1..] == [Number(x), Text(")")];
  }

  /**
   * The block has one line per market (more only if a name holds a line break itself);
   * its height depends on the names alone, not on prices, states or thresholds.
   */
  lemma {:induction false} RenderedHeight(names: seq<string>, data: map<string, MarketRecord>)
    requires forall n :: n in names ==> n in data
    ensures LineCount(Rendered(names, data)) == |names| + NameBreaks(names)
    decreases |names|
  {
    if names != [] {
      var init, last := names[..|names| - 1], names[|names| - 1];
      RenderedHeight(init, data);
      LineCountAppend(Rendered(init, data), MarketLine(last, data[last]));
      MarketLineHeight(last, data[last]);
    }
  }

  /** With names free of line breaks, the block has exactly one line per market. */
  lemma RenderedLinePerMarket(names: seq<string>, data: map<string, MarketRecord>)
    requires forall n :: n in names ==> n in data
    requires forall n :: n in names ==> '\n' !in n
    ensures LineCount(Rendered(names, data)) == |names|
  {
    NoNameBreaks(names);
    RenderedHeight(names, data);
  }

  lemma {:induction false} NoNameBreaks(names: seq<string>)
    requires forall n :: n in names ==> '\n' !in n
    ensures NameBreaks(names) == 0
    decreases |names|
  {
    if names != [] {
      NoNameBreaks(names[..|names| - 1]);
      NoBreakOccurs(names[|names| - 1]);
    }
  }

  lemma {:induction false} NoBreakOccurs(s: string)
    requires '\n' !in s
    ensures Occurrences(s, '\n') == 0
  {
    if s != [] {
      NoBreakOccurs(s[1..]);
    }
  }

  /** The k-th line of the block is the line of the k-th market, so lines follow key order. */
  lemma {:induction false} RenderedLineAt(names: seq<string>, data: map<string, MarketRecord>, k: nat)
    requires forall n :: n in names ==> n in data
    requires k < |names|
    ensures Rendered(names, data)[LINE_PIECES * k..LINE_PIECES * (k + 1)] == MarketLine(names[k], data[names[k]])
    decreases |names|
  {
    var init := names[..|names| - 1];
    if k < |names| - 1 {
      RenderedLineAt(init, data, k);
      assert Rendered(names, data)[..LINE_PIECES * |init|] == Rendered(init, data);
    }
  }
}
