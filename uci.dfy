/** The UCI vocabulary both client versions share: the command lines they
    write, the reply lines they wait for, and the move-list joiner. */
module Uci {
  import opened PyTypes
  import opened PyStr
  import opened Params

  const ReadyOk: string := "readyok"
  const BestMove: string := "bestmove"
  const NoMove: string := "(none)"

  /** The barrier's test on a raw `readline()` result. */
  predicate IsReadyOk(line: string) {
    Strip(line) == ReadyOk
  }

  /** `line.strip().split(" ")`. */
  function Tokens(line: string): (r: seq<string>)
    ensures |r| >= 1
  {
    Split(Strip(line), ' ')
  }

  /** The search loops' test: the first space-separated token is `bestmove`. */
  predicate IsBestMoveLine(line: string) {
    Tokens(line)[0] == BestMove
  }

  /** `split_text[1]` on a `bestmove` line; a bare `bestmove` has no second
      token and indexing it raises IndexError. */
  function BestMoveToken(line: string): Result<string>
  {
    var t := Tokens(line);
    if |t| < 2 then Raised(IndexError) else Ok(t[1])
  }

  /** The replies a client waits for. */
  datatype Awaited = ReadyOkLine | BestMoveLine

  /** Whether `line` ends a wait for `w`. */
  predicate Ends(w: Awaited, line: string) {
    match w
    case ReadyOkLine => IsReadyOk(line)
    case BestMoveLine => IsBestMoveLine(line)
  }

  /** The first token of a split is the word `w` exactly when the text is
      `w` alone or `w` followed by a space. */
  lemma FirstTokenForm(text: string, w: string)
    requires ' ' !in w
    ensures Split(text, ' ')[0] == w <==>
            text == w || (|text| > |w| && text[..|w| + 1] == w + [' '])
  {
    if text == w {
      SplitWhole(text, ' ');
    } else if |text| > |w| && text[..|w| + 1] == w + [' '] {
      var rest := text[|w| + 1..];
      assert Split(text, ' ')[0] == w by {
        assert text == w + [' '] + rest;
        SplitCons(w, ' ', rest);
      }
    } else {
      SplitFields(text, ' ');
    }
  }

  /** A stripped line is a `bestmove` line exactly when it is the bare word
      or starts with the word and a space. */
  lemma BestMoveLineForm(line: string)
    ensures IsBestMoveLine(line) <==>
            Strip(line) == BestMove || (|Strip(line)| > 8 && Strip(line)[..9] == BestMove + " ")
  {
    FirstTokenForm(Strip(line), BestMove);
  }

  /** The token after `bestmove` is the move, up to the next space; what
      follows it (`ponder ...`) is ignored. */
  lemma {:induction false} BestMoveTokenOf(line: string, move: string, rest: string)
    requires Strip(line) == BestMove + [' '] + move + rest
    requires ' ' !in move && (rest == [] || rest[0] == ' ')
    ensures IsBestMoveLine(line) && BestMoveToken(line) == Ok(move)
  {
    var text := Strip(line);
    var tail := Split(move + rest, ' ');
    assert tail[0] == move by {
      if rest == [] {
        assert move + rest == move;
        SplitWhole(move, ' ');
      } else {
        assert move + rest == move + [' '] + rest[1..];
        SplitCons(move, ' ', rest[1..]);
      }
    }
    assert Split(text, ' ') == [BestMove] + tail by {
      assert text == BestMove + [' '] + (move + rest);
      SplitCons(BestMove, ' ', move + rest);
    }
  }

  /** A bare `bestmove` line has no move token. */
  lemma BareBestMove(line: string)
    requires Strip(line) == BestMove
    ensures IsBestMoveLine(line) && BestMoveToken(line) == Raised(IndexError)
  {
    SplitWhole(BestMove, ' ');
  }

  /** The commands the clients write to the engine. */
  datatype Command =
    | UciCmd
    | IsReadyCmd
    | NewGameCmd
    | SetOptionCmd(name: string, value: Value)
    | GoCmd(depth: string)
    | SearchMovesCmd(move: string)
    | StartposCmd(moves: string)
    | FenCmd(fen: string)

  /** The text of a command line, as written before its newline:
      `f"setoption name {name} value {value}"`, `"go depth %s" % depth`,
      `"go depth 1 searchmoves %s" % move`,
      `f"position startpos moves {moves}"`, `f"position fen {fen}"`. */
  function Line(c: Command): string
  {
    match c
    case UciCmd => "uci"
    case IsReadyCmd => "isready"
    case NewGameCmd => "ucinewgame"
    case SetOptionCmd(name, value) => "setoption name " + name + " value " + Show(value)
    case GoCmd(depth) => "go depth " + depth
    case SearchMovesCmd(move) => "go depth 1 searchmoves " + move
    case StartposCmd(moves) => "position startpos moves " + moves
    case FenCmd(fen) => "position fen " + fen
  }

  /** One `setoption` command and one `isready` per item, in dict order. */
  function OptionLines(items: Items): seq<Command>
  {
    if items == [] then []
    else OptionLines(items[..|items| - 1]) +
         [SetOptionCmd(items[|items| - 1].0, items[|items| - 1].1), IsReadyCmd]
  }

  /** The option commands of one more item. */
  lemma OptionLinesSnoc(items: Items, i: nat)
    requires i < |items|
    ensures OptionLines(items[..i + 1]) ==
            OptionLines(items[..i]) + [SetOptionCmd(items[i].0, items[i].1), IsReadyCmd]
  {
    assert items[..i + 1][..i] == items[..i];
  }

  /** The option commands alternate: item `i`'s `setoption` sits at
      position `2 i`, followed by `isready`. */
  lemma {:induction false} OptionLinesAt(items: Items, i: nat)
    requires i < |items|
    ensures |OptionLines(items)| == 2 * |items|
    ensures OptionLines(items)[2 * i] == SetOptionCmd(items[i].0, items[i].1)
    ensures OptionLines(items)[2 * i + 1] == IsReadyCmd
  {
    if i < |items| - 1 {
      OptionLinesAt(items[..|items| - 1], i);
    } else if |items| > 1 {
      OptionLinesAt(items[..|items| - 1], 0);
    }
  }

  /** A depth stored as `str(depth)` reaches the engine as a third token
      that reads back as the same number. */
  lemma GoCommandTokens(depth: int)
    ensures Split(Line(GoCmd(Decimal(depth))), ' ') == ["go", "depth", Decimal(depth)]
    ensures ParseDecimal(Split(Line(GoCmd(Decimal(depth))), ' ')[2]) == depth
  {
    DecimalPlain(depth);
    DecimalRoundTrip(depth);
    var d := Decimal(depth);
    assert Line(GoCmd(d)) == "go" + [' '] + ("depth" + [' '] + d);
    SplitCons("go", ' ', "depth" + [' '] + d);
    SplitCons("depth", ' ', d);
    SplitWhole(d, ' ');
  }

  // The joiner comes in three parts: `Terminated` is what its loop has
  // accumulated (the loop invariant), `MoveListStr` is what it returns (the
  // specification), and `ConvertMoveListToStr` is the loop itself.

  /** What the joiner's loop accumulates: every move followed by a space. */
  function Terminated(moves: seq<string>): string
  {
    if moves == [] then ""
    else Terminated(moves[..|moves| - 1]) + moves[|moves| - 1] + " "
  }

  /** What `__convert_move_list_to_str` returns. */
  function MoveListStr(moves: seq<string>): string
  {
    Strip(Terminated(moves))
  }

  /** A move list that the joiner turns into exactly the space-joined moves:
      no whitespace inside any move, and the outer moves not empty. */
  predicate PlainMoves(moves: seq<string>) {
    (forall k :: 0 <= k < |moves| ==> NoSpace(moves[k])) &&
    (moves != [] ==> moves[0] != [] && moves[|moves| - 1] != [])
  }

  lemma {:induction false} TerminatedJoin(moves: seq<string>)
    requires moves != []
    ensures Terminated(moves) == Join(moves, ' ') + " "
  {
    var init := moves[..|moves| - 1];
    if init != [] {
      TerminatedJoin(init);
      JoinSnoc(init, moves[|moves| - 1], ' ');
      assert init + [moves[|moves| - 1]] == moves;
    } else {
      assert moves == [moves[0]];
    }
  }

  /** The joiner returns the moves joined by single spaces, and `""` for no
      moves. */
  lemma MoveListJoined(moves: seq<string>)
    requires PlainMoves(moves)
    ensures MoveListStr(moves) == Join(moves, ' ')
  {
    if moves != [] {
      var j := Join(moves, ' ');
      TerminatedJoin(moves);
      JoinEnds(moves, ' ');
      assert !IsSpace(moves[0][0]);
      var last := moves[|moves| - 1];
      assert !IsSpace(last[|last| - 1]);
      assert LStrip(j + " ") == j + " ";
      RStripTrailing(j, " ");
      StripUnchanged(j);
    }
  }

  /** `__convert_move_list_to_str`: append each move and a space, then strip. */
  method ConvertMoveListToStr(moves: seq<string>) returns (r: string)
    ensures r == MoveListStr(moves)
    ensures PlainMoves(moves) ==> r == Join(moves, ' ')
  {
    var result := "";
    for i := 0 to |moves|
      invariant result == Terminated(moves[..i])
    {
      assert moves[..i + 1][..i] == moves[..i];
      result := result + moves[i] + " ";
    }
    assert moves[..|moves|] == moves;
    r := Strip(result);
    if PlainMoves(moves) {
      MoveListJoined(moves);
    }
  }

  /** The `position startpos moves` line is three words, each followed by
      a space, then the moves. */
  lemma StartposText(j: string)
    ensures Line(StartposCmd(j)) == "position" + [' '] + ("startpos" + [' '] + ("moves" + [' '] + j))
  {
    assert "position startpos moves " == "position" + [' '] + "startpos" + [' '] + "moves" + [' '];
  }

  /** The engine reads the `position startpos moves` line as its three
      keywords followed by the fields of the joined moves. */
  lemma StartposSplit(j: string)
    ensures Split(Line(StartposCmd(j)), ' ') == ["position", "startpos", "moves"] + Split(j, ' ')
  {
    var a := "moves" + [' '] + j;
    var b := "startpos" + [' '] + a;
    StartposText(j);
    SplitCons("moves", ' ', j);
    SplitCons("startpos", ' ', a);
    SplitCons("position", ' ', b);
  }

  /** The moves come back one per token; an empty list leaves a trailing
      space, which reads back as one empty token. */
  lemma StartposTokens(moves: seq<string>)
    requires forall k :: 0 <= k < |moves| ==> ' ' !in moves[k]
    ensures Split(Line(StartposCmd(Join(moves, ' '))), ' ') ==
            ["position", "startpos", "moves"] + (if moves == [] then [""] else moves)
  {
    StartposSplit(Join(moves, ' '));
    if moves != [] {
      SplitJoin(moves, ' ');
    }
  }
}
