/** The older single-file client of `stockfish.py`: the same UCI dialogue as
    the package version, with its own option table built afresh for every
    instance, a barrier after every position, and a best move reported as
    the raw second token of the `bestmove` line. */
module StockfishLegacy {
  import opened PyTypes
  import opened PyStr
  import opened Params
  import opened Channel
  import opened Uci

  /** The thirteen entries of `default_param`, in source order; unlike the
      package version it still carries `Contempt Factor`. */
  function LegacyDefaults(): (r: Items)
    ensures |r| == 13 && KeysDistinct(r)
  {
    [("Write Debug Log", Str("false")),
     ("Contempt Factor", Int(0)),
     ("Contempt", Int(0)),
     ("Min Split Depth", Int(0)),
     ("Threads", Int(1)),
     ("Ponder", Str("false")),
     ("Hash", Int(16)),
     ("MultiPV", Int(1)),
     ("Skill Level", Int(20)),
     ("Move Overhead", Int(30)),
     ("Minimum Thinking Time", Int(20)),
     ("Slow Mover", Int(80)),
     ("UCI_Chess960", Str("false"))]
  }

  /** `__set_option` prints its warning when the barrier's answer contains
      `No such`; the barrier only ever answers `readyok`, so the warning can
      never be printed. */
  lemma NoSuchNeverFound()
    ensures Find(ReadyOk, "No such") == -1
  {
    forall i | 0 <= i <= |ReadyOk|
      ensures !OccursAt(ReadyOk, "No such", i)
    {
      if i == 0 {
        assert ReadyOk[..7][0] != "No such"[0];
      }
    }
  }

  class Stockfish {
    const proc: Pipe
    const depth: string
    const param: ParamDict

    /** `__init__`: start the engine, store the depth, send `uci`, build
        this instance's option table from the defaults and the caller's
        dict, set every option with a barrier after each, and start a new
        game. */
    constructor (output: seq<string>, depth: int, param: Option<Items>)
      requires Count(output, 0, ReadyOkLine) >= |Updated(LegacyDefaults(), CallerParams(param))| + 1
      ensures fresh(proc) && fresh(this.param) && proc.input == output
      ensures this.param.Valid() && this.param.items == Updated(LegacyDefaults(), CallerParams(param))
      ensures this.depth == Decimal(depth)
      ensures proc.sent == [UciCmd] + OptionLines(this.param.items) + [NewGameCmd, IsReadyCmd]
      ensures Waits(output, 0, |this.param.items| + 1, ReadyOkLine) == Some(proc.pos)
    {
      proc := new Pipe(output);
      this.depth := Decimal(depth);
      this.param := new ParamDict(LegacyDefaults());
      new;
      Put(UciCmd);
      this.param.Update(CallerParams(param));
      var items := this.param.items;
      ApplyOptions(items);
    }

    /** The end of `__init__`: set every option of the merged table, then
        start a new game. */
    method ApplyOptions(items: Items)
      requires Count(proc.input, proc.pos, ReadyOkLine) >= |items| + 1
      modifies proc
      ensures proc.sent == old(proc.sent) + OptionLines(items) + [NewGameCmd, IsReadyCmd]
      ensures Waits(proc.input, old(proc.pos), |items| + 1, ReadyOkLine) == Some(proc.pos)
    {
      ghost var from := proc.pos;
      SetOptions(items);
      ghost var p := proc.pos;
      WaitsNext(proc.input, from, |items|, ReadyOkLine, p);
      StartNewGame();
    }

    /** The loop of `__init__` over `default_param.items()`. */
    method SetOptions(items: Items)
      requires Count(proc.input, proc.pos, ReadyOkLine) >= |items|
      modifies proc
      ensures proc.sent == old(proc.sent) + OptionLines(items)
      ensures Waits(proc.input, old(proc.pos), |items|, ReadyOkLine) == Some(proc.pos)
    {
      ghost var from := proc.pos;
      for i := 0 to |items|
        invariant proc.sent == old(proc.sent) + OptionLines(items[..i])
        invariant Waits(proc.input, from, i, ReadyOkLine) == Some(proc.pos)
      {
        WaitsNext(proc.input, from, i, ReadyOkLine, proc.pos);
        SetOption(items[i].0, items[i].1);
        OptionLinesSnoc(items, i);
      }
      assert items[..|items|] == items;
    }

    /** `__start_new_game`. */
    method StartNewGame()
      requires FirstIndex(proc.input, proc.pos, ReadyOkLine).Some?
      modifies proc
      ensures proc.sent == old(proc.sent) + [NewGameCmd, IsReadyCmd]
      ensures proc.pos == FirstIndex(proc.input, old(proc.pos), ReadyOkLine).value + 1
    {
      Put(NewGameCmd);
      var _ := IsReady();
    }

    /** `__put`: write one command line. */
    method Put(command: Command)
      modifies proc
      ensures proc.sent == old(proc.sent) + [command] && proc.pos == old(proc.pos)
    {
      proc.Write(command);
    }

    /** `__set_option`: the command, then the barrier, whose answer is
        searched for `No such`. */
    method SetOption(name: string, value: Value)
      requires FirstIndex(proc.input, proc.pos, ReadyOkLine).Some?
      modifies proc
      ensures proc.sent == old(proc.sent) + [SetOptionCmd(name, value), IsReadyCmd]
      ensures proc.pos == FirstIndex(proc.input, old(proc.pos), ReadyOkLine).value + 1
    {
      Put(SetOptionCmd(name, value));
      var stdout := IsReady();
      NoSuchNeverFound();
      if Find(stdout, "No such") >= 0 {
        assert false;
      }
    }

    /** `set_position`: the `position startpos moves` line, then a barrier. */
    method SetPosition(moves: Option<seq<string>>)
      requires FirstIndex(proc.input, proc.pos, ReadyOkLine).Some?
      modifies proc
      ensures proc.sent == old(proc.sent) +
                [StartposCmd(MoveListStr(if moves.None? then [] else moves.value)), IsReadyCmd]
      ensures proc.pos == FirstIndex(proc.input, old(proc.pos), ReadyOkLine).value + 1
    {
      var ms := if moves.None? then [] else moves.value;
      var joined := ConvertMoveListToStr(ms);
      Put(StartposCmd(joined));
      var _ := IsReady();
    }

    /** `__go`. */
    method Go()
      modifies proc
      ensures proc.sent == old(proc.sent) + [GoCmd(depth)] && proc.pos == old(proc.pos)
    {
      Put(GoCmd(depth));
    }

    /** `get_best_move`: search to the stored depth and return the second
        token of the first `bestmove` line, `(none)` included; a bare
        `bestmove` raises IndexError. Without such a line the source loops
        forever, hence the precondition. */
    method GetBestMove() returns (r: Result<string>)
      requires FirstIndex(proc.input, proc.pos, BestMoveLine).Some?
      modifies proc
      ensures var t := FirstIndex(proc.input, old(proc.pos), BestMoveLine).value;
        proc.pos == t + 1 &&
        proc.sent == old(proc.sent) + [GoCmd(depth)] &&
        r == BestMoveToken(proc.input[t])
    {
      Go();
      ghost var target := FirstIndex(proc.input, proc.pos, BestMoveLine).value;
      while true
        invariant proc.pos <= target
        invariant FirstIndex(proc.input, proc.pos, BestMoveLine) == Some(target)
        invariant proc.sent == old(proc.sent) + [GoCmd(depth)]
        decreases target - proc.pos
      {
        var line := proc.ReadLine();
        FirstIndexStep(proc.input, proc.pos - 1, BestMoveLine);
        var text := Strip(line);
        var splitText := Split(text, ' ');
        assert Ends(BestMoveLine, line) <==> splitText[0] == BestMove;
        if splitText[0] == BestMove {
          if |splitText| < 2 {
            return Raised(IndexError);
          }
          return Ok(splitText[1]);
        }
      }
    }

    /** `__isready`: send `isready`, then read up to and including the first
        line that strips to `readyok`, and return that stripped text.
        Without such a line the source loops forever, hence the
        precondition. */
    method IsReady() returns (text: string)
      requires FirstIndex(proc.input, proc.pos, ReadyOkLine).Some?
      modifies proc
      ensures text == ReadyOk
      ensures proc.sent == old(proc.sent) + [IsReadyCmd]
      ensures proc.pos == FirstIndex(proc.input, old(proc.pos), ReadyOkLine).value + 1
    {
      Put(IsReadyCmd);
      ghost var target := FirstIndex(proc.input, proc.pos, ReadyOkLine).value;
      while true
        invariant proc.pos <= target
        invariant FirstIndex(proc.input, proc.pos, ReadyOkLine) == Some(target)
        invariant proc.sent == old(proc.sent) + [IsReadyCmd]
        decreases target - proc.pos
      {
        var line := proc.ReadLine();
        FirstIndexStep(proc.input, proc.pos - 1, ReadyOkLine);
        text := Strip(line);
        assert Ends(ReadyOkLine, line) <==> text == ReadyOk;
        if text == ReadyOk {
          return;
        }
      }
    }
  }
}
