/** The `Stockfish` client of `stockfish/models.py`: it drives one engine
    over a pipe, remembers the search depth as text, keeps the `info` line
    that preceded the last best move, and shares its option table with the
    module-level defaults. */
module StockfishModels {
  import opened PyTypes
  import opened PyStr
  import opened Params
  import opened Channel
  import opened Uci

  /** The twelve entries of `DEFAULT_STOCKFISH_PARAMS`, in source order. */
  function DefaultParams(): (r: Items)
    ensures |r| == 12 && KeysDistinct(r)
  {
    [("Write Debug Log", Str("false")),
     ("Contempt", Int(0)),
     ("Min Split Depth", Int(0)),
     ("Threads", Int(1)),
     ("Ponder", Str("false")),
     ("Hash", Int(16)),
     ("MultiPV", Int(1)),
     ("Skill Level", Int(20)),
     ("Move Overhead", Int(30)),
     ("Minimum Thinking Time", Int(20)),
     ("Slow Mover", Int(80)),
     ("UCI_Chess960", Str("false"))]
  }

  /** Loading the module: `DEFAULT_STOCKFISH_PARAMS` is one dict object,
      created once and then shared by every instance. */
  method LoadDefaultParams() returns (d: ParamDict)
    ensures fresh(d) && d.Valid() && d.items == DefaultParams()
  {
    d := new ParamDict(DefaultParams());
  }

  /** `get_best_move`'s answer for its `bestmove` line: the move, `None`
      for `(none)`, or the IndexError of a bare `bestmove`. */
  function BestMoveResult(line: string): Result<Option<string>>
  {
    match BestMoveToken(line)
    case Raised(e) => Raised(e)
    case Ok(m) => if m == NoMove then Ok(None) else Ok(Some(m))
  }

  /** `is_move_correct`'s answer for its `bestmove` line. */
  function MoveCheckResult(line: string): Result<bool>
  {
    match BestMoveToken(line)
    case Raised(e) => Raised(e)
    case Ok(m) => Ok(m != NoMove)
  }

  /** `last_text` when the reader stands at `pos` after starting at `start`:
      the stripped line read just before, or `""` if none was read yet. */
  function LastText(lines: seq<string>, start: nat, pos: nat): string
    requires start <= pos <= |lines|
  {
    if pos == start then "" else Strip(lines[pos - 1])
  }

  /** The best move and the no-move sentinel as `get_best_move` reports
      them, for a line `bestmove <move> ...`. */
  lemma BestMoveReported(line: string, move: string, rest: string)
    requires Strip(line) == BestMove + [' '] + move + rest
    requires ' ' !in move && (rest == [] || rest[0] == ' ')
    ensures IsBestMoveLine(line)
    ensures BestMoveResult(line) == if move == NoMove then Ok(None) else Ok(Some(move))
    ensures MoveCheckResult(line) == Ok(move != NoMove)
  {
    BestMoveTokenOf(line, move, rest);
  }

  /** A caller's override survives later constructions that do not mention
      its key, because every instance updates the same shared dict. */
  lemma OverridesPersist(defaults: Items, first: Items, later: Items, key: string)
    requires KeysDistinct(first) && KeysDistinct(later)
    requires key in Keys(first) && key !in Keys(later)
    ensures Lookup(Updated(Updated(defaults, first), later), key) == Lookup(first, key)
  {
    UpdatedLookup(Updated(defaults, first), later, key);
    UpdatedLookup(defaults, first, key);
  }

  class Stockfish {
    const proc: Pipe
    const depth: string
    var info: string
    const params: ParamDict

    /** `__init__`: start the engine, send `uci`, merge the caller's
        options into the shared defaults, set every option with a barrier
        after each, and start a new game. */
    constructor (defaults: ParamDict, output: seq<string>, depth: int, params: Option<Items>)
      requires defaults.Valid()
      requires Count(output, 0, ReadyOkLine) >= |Updated(defaults.items, CallerParams(params))| + 1
      modifies defaults
      ensures fresh(proc) && proc.input == output
      ensures this.params == defaults && defaults.Valid()
      ensures defaults.items == Updated(old(defaults.items), CallerParams(params))
      ensures this.depth == Decimal(depth) && info == ""
      ensures proc.sent == [UciCmd] + OptionLines(defaults.items) + [NewGameCmd, IsReadyCmd]
      ensures Waits(output, 0, |defaults.items| + 1, ReadyOkLine) == Some(proc.pos)
    {
      proc := new Pipe(output);
      this.depth := Decimal(depth);
      info := "";
      this.params := defaults;
      new;
      Put(UciCmd);
      this.params.Update(CallerParams(params));
      var items := this.params.items;
      ApplyOptions(items);
    }

    /** The end of `__init__`: set every option of the merged table, then
        start a new game. */
    method ApplyOptions(items: Items)
      requires Count(proc.input, proc.pos, ReadyOkLine) >= |items| + 1
      modifies proc
      ensures proc.sent == old(proc.sent) + OptionLines(items) + [NewGameCmd, IsReadyCmd]
      ensures Waits(proc.input, old(proc.pos), |items| + 1, ReadyOkLine) == Some(proc.pos)
    {
      ghost var from := proc.pos;
      SetOptions(items);
      ghost var p := proc.pos;
      WaitsNext(proc.input, from, |items|, ReadyOkLine, p);
      StartNewGame();
    }

    /** The loop of `__init__` over `self.params.items()`: set each option,
        with its barrier, in dict order. */
    method SetOptions(items: Items)
      requires Count(proc.input, proc.pos, ReadyOkLine) >= |items|
      modifies proc
      ensures proc.sent == old(proc.sent) + OptionLines(items)
      ensures Waits(proc.input, old(proc.pos), |items|, ReadyOkLine) == Some(proc.pos)
    {
      ghost var from := proc.pos;
      for i := 0 to |items|
        invariant proc.sent == old(proc.sent) + OptionLines(items[..i])
        invariant Waits(proc.input, from, i, ReadyOkLine) == Some(proc.pos)
      {
        WaitsNext(proc.input, from, i, ReadyOkLine, proc.pos);
        SetOption(items[i].0, items[i].1);
        OptionLinesSnoc(items, i);
      }
      assert items[..|items|] == items;
    }

    /** `__start_new_game`. */
    method StartNewGame()
      requires FirstIndex(proc.input, proc.pos, ReadyOkLine).Some?
      modifies proc
      ensures proc.sent == old(proc.sent) + [NewGameCmd, IsReadyCmd]
      ensures proc.pos == FirstIndex(proc.input, old(proc.pos), ReadyOkLine).value + 1
    {
      Put(NewGameCmd);
      IsReady();
    }

    /** `__put`: write one command line. */
    method Put(command: Command)
      modifies proc
      ensures proc.sent == old(proc.sent) + [command] && proc.pos == old(proc.pos)
    {
      proc.Write(command);
    }

    /** `__set_option`. */
    method SetOption(name: string, value: Value)
      requires FirstIndex(proc.input, proc.pos, ReadyOkLine).Some?
      modifies proc
      ensures proc.sent == old(proc.sent) + [SetOptionCmd(name, value), IsReadyCmd]
      ensures proc.pos == FirstIndex(proc.input, old(proc.pos), ReadyOkLine).value + 1
    {
      Put(SetOptionCmd(name, value));
      IsReady();
    }

    /** `__is_ready`: send `isready`, then read and drop lines up to and
        including the first one that strips to `readyok`. Without such a
        line the source loops forever, hence the precondition. */
    method IsReady()
      requires FirstIndex(proc.input, proc.pos, ReadyOkLine).Some?
      modifies proc
      ensures proc.sent == old(proc.sent) + [IsReadyCmd]
      ensures proc.pos == FirstIndex(proc.input, old(proc.pos), ReadyOkLine).value + 1
    {
      Put(IsReadyCmd);
      ghost var target := FirstIndex(proc.input, proc.pos, ReadyOkLine).value;
      while true
        invariant proc.pos <= target
        invariant FirstIndex(proc.input, proc.pos, ReadyOkLine) == Some(target)
        invariant proc.sent == old(proc.sent) + [IsReadyCmd]
        decreases target - proc.pos
      {
        var line := proc.ReadLine();
        FirstIndexStep(proc.input, proc.pos - 1, ReadyOkLine);
        assert Ends(ReadyOkLine, line) <==> Strip(line) == ReadyOk;
        if Strip(line) == ReadyOk {
          return;
        }
      }
    }

    /** `__go`. */
    method Go()
      modifies proc
      ensures proc.sent == old(proc.sent) + [GoCmd(depth)] && proc.pos == old(proc.pos)
    {
      Put(GoCmd(depth));
    }

    /** `set_position`: one `position startpos moves` line and no reading. */
    method SetPosition(moves: Option<seq<string>>)
      modifies proc
      ensures proc.sent == old(proc.sent) + [StartposCmd(MoveListStr(if moves.None? then [] else moves.value))]
      ensures proc.pos == old(proc.pos)
    {
      var ms := if moves.None? then [] else moves.value;
      var joined := ConvertMoveListToStr(ms);
      Put(StartposCmd(joined));
    }

    /** `set_fen_position`: a new game with its barrier, then the FEN. */
    method SetFenPosition(fen: string)
      requires FirstIndex(proc.input, proc.pos, ReadyOkLine).Some?
      modifies proc
      ensures proc.sent == old(proc.sent) + [NewGameCmd, IsReadyCmd, FenCmd(fen)]
      ensures proc.pos == FirstIndex(proc.input, old(proc.pos), ReadyOkLine).value + 1
    {
      StartNewGame();
      Put(FenCmd(fen));
    }

    /** `get_best_move`: search to the stored depth and read through the
        first `bestmove` line. Without such a line the source loops forever,
        hence the precondition. */
    method GetBestMove() returns (r: Result<Option<string>>)
      requires FirstIndex(proc.input, proc.pos, BestMoveLine).Some?
      modifies this, proc
      ensures var t := FirstIndex(proc.input, old(proc.pos), BestMoveLine).value;
        proc.pos == t + 1 &&
        proc.sent == old(proc.sent) + [GoCmd(depth)] &&
        r == BestMoveResult(proc.input[t]) &&
        info == if r.Ok? && r.value.Some? then LastText(proc.input, old(proc.pos), t) else old(info)
    {
      Go();
      var lastText := "";
      ghost var start := proc.pos;
      ghost var target := FirstIndex(proc.input, proc.pos, BestMoveLine).value;
      while true
        invariant start <= proc.pos <= target
        invariant FirstIndex(proc.input, proc.pos, BestMoveLine) == Some(target)
        invariant proc.sent == old(proc.sent) + [GoCmd(depth)]
        invariant lastText == LastText(proc.input, start, proc.pos)
        invariant info == old(info)
        decreases target - proc.pos
      {
        var line := proc.ReadLine();
        FirstIndexStep(proc.input, proc.pos - 1, BestMoveLine);
        var text := Strip(line);
        var splittedText := Split(text, ' ');
        assert Ends(BestMoveLine, line) <==> splittedText[0] == BestMove;
        if splittedText[0] == BestMove {
          if |splittedText| < 2 {
            return Raised(IndexError);
          }
          if splittedText[1] == NoMove {
            return Ok(None);
          }
          info := lastText;
          return Ok(Some(splittedText[1]));
        }
        lastText := text;
      }
    }

    /** `is_move_correct`: a depth-1 search restricted to `move`; the move
        is correct unless the engine answers `bestmove (none)`. */
    method IsMoveCorrect(move: string) returns (r: Result<bool>)
      requires FirstIndex(proc.input, proc.pos, BestMoveLine).Some?
      modifies proc
      ensures var t := FirstIndex(proc.input, old(proc.pos), BestMoveLine).value;
        proc.pos == t + 1 &&
        proc.sent == old(proc.sent) + [SearchMovesCmd(move)] &&
        r == MoveCheckResult(proc.input[t])
      ensures info == old(info)
    {
      Put(SearchMovesCmd(move));
      ghost var target := FirstIndex(proc.input, proc.pos, BestMoveLine).value;
      while true
        invariant proc.pos <= target
        invariant FirstIndex(proc.input, proc.pos, BestMoveLine) == Some(target)
        invariant proc.sent == old(proc.sent) + [SearchMovesCmd(move)]
        decreases target - proc.pos
      {
        var line := proc.ReadLine();
        FirstIndexStep(proc.input, proc.pos - 1, BestMoveLine);
        var text := Strip(line);
        var splittedText := Split(text, ' ');
        assert Ends(BestMoveLine, line) <==> splittedText[0] == BestMove;
        if splittedText[0] == BestMove {
          if |splittedText| < 2 {
            return Raised(IndexError);
          }
          if splittedText[1] == NoMove {
            return Ok(false);
          } else {
            return Ok(true);
          }
        }
      }
    }
  }
}
