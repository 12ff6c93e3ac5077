/** The builder store and its history manager, over command objects. */
module BuilderStore {
  import opened Canvas
  import opened Commands
  import opened History

  /** The command objects as values. */
  ghost function Entries(cs: seq<Command>): (es: seq<Entry>)
    reads cs
    ensures |es| == |cs| && forall i :: 0 <= i < |cs| ==> es[i] == Entry(cs[i].action, cs[i].Memory())
  {
    if cs == [] then []
    else
      var last := cs[|cs| - 1];
      Entries(cs[..|cs| - 1]) + [Entry(last.action, last.Memory())]
  }

  lemma EntriesAppend(cs: seq<Command>, c: Command)
    ensures Entries(cs + [c]) == Entries(cs) + [Entry(c.action, c.Memory())]
  {
    assert (cs + [c])[..|cs|] == cs;
  }

  lemma EntriesTail(cs: seq<Command>)
    requires cs != []
    ensures Entries(cs[1..]) == Entries(cs)[1..]
  {
  }

  /** No command object stands twice on the stacks. */
  predicate Separate(u: seq<Command>, r: seq<Command>) {
    && (forall i, k :: 0 <= i < k < |u| ==> u[i] != u[k])
    && (forall i, k :: 0 <= i < k < |r| ==> r[i] != r[k])
    && (forall i, k :: 0 <= i < |u| && 0 <= k < |r| ==> u[i] != r[k])
  }

  /** The top of one stack goes onto the other. */
  lemma MoveTop(u: seq<Command>, r: seq<Command>)
    requires u != []
    ensures Separate(u, r) ==> Separate(u[..|u| - 1], r + [u[|u| - 1]])
    ensures Separate(r, u) ==> Separate(r + [u[|u| - 1]], u[..|u| - 1])
  {
  }

  lemma OnlyOnTop(u: seq<Command>, r: seq<Command>)
    requires Separate(u, r) && r != []
    ensures r[|r| - 1] !in u && r[|r| - 1] !in r[..|r| - 1]
  {
  }

  lemma PutOnTop(u: seq<Command>, r: seq<Command>, c: Command)
    requires Separate(u, r) && c !in u
    ensures Separate(u + [c], []) && Separate((u + [c])[1..], [])
  {
  }

  class HistoryManager {
    var undoStack: seq<Command>
    var redoStack: seq<Command>

    constructor ()
      ensures undoStack == [] && redoStack == []
    {
      undoStack, redoStack := [], [];
    }

    method Push(command: Command)
      modifies this
      ensures redoStack == []
      ensures |old(undoStack)| < 50 ==> undoStack == old(undoStack) + [command]
      ensures |old(undoStack)| >= 50 ==> undoStack == (old(undoStack) + [command])[1..]
    {
      undoStack := undoStack + [command];
      redoStack := [];
      if |undoStack| > MAX_HISTORY {
        undoStack := undoStack[1..];
      }
    }

    method PopUndo() returns (command: Command?)
      modifies this
      ensures command == null <==> old(undoStack) == []
      ensures command == null ==> undoStack == old(undoStack) && redoStack == old(redoStack)
      ensures command != null ==>
                && command == old(undoStack)[|old(undoStack)| - 1]
                && undoStack == old(undoStack)[..|old(undoStack)| - 1]
                && redoStack == old(redoStack) + [command]
    {
      if undoStack == [] {
        return null;
      }
      var c := undoStack[|undoStack| - 1];
      undoStack := undoStack[..|undoStack| - 1];
      redoStack := redoStack + [c];
      command := c;
    }

    method PopRedo() returns (command: Command?)
      modifies this
      ensures command == null <==> old(redoStack) == []
      ensures command == null ==> undoStack == old(undoStack) && redoStack == old(redoStack)
      ensures command != null ==>
                && command == old(redoStack)[|old(redoStack)| - 1]
                && redoStack == old(redoStack)[..|old(redoStack)| - 1]
                && undoStack == old(undoStack) + [command]
    {
      if redoStack == [] {
        return null;
      }
      var c := redoStack[|redoStack| - 1];
      redoStack := redoStack[..|redoStack| - 1];
      undoStack := undoStack + [c];
      command := c;
    }
  }

  class Store {
    var state: BuilderState
    const historyManager: HistoryManager

    ghost predicate Valid()
      reads this, historyManager
    {
      Separate(historyManager.undoStack, historyManager.redoStack)
    }

    ghost function Value(): Editor
      reads this, historyManager, historyManager.undoStack, historyManager.redoStack
    {
      Editor(state, Entries(historyManager.undoStack), Entries(historyManager.redoStack))
    }

    constructor (s: BuilderState)
      ensures Valid() && fresh(historyManager) && Value() == Editor(s, [], [])
    {
      state := s;
      historyManager := new HistoryManager();
    }

    method Dispatch(command: Command)
      requires Valid() && command.Memory() == BLANK
      requires command !in historyManager.undoStack && command !in historyManager.redoStack
      modifies this, historyManager, command
      ensures Valid() && Value() == Dispatched(old(Value()), command.action)
    {
      hide Separate, Executed, Entries;
      ghost var u := historyManager.undoStack;
      PutOnTop(u, historyManager.redoStack, command);
      state := command.Execute(state);
      historyManager.Push(command);
      EntriesAppend(u, command);
      EntriesTail(u + [command]);
    }

    method Undo()
      requires Valid()
      modifies this, historyManager
      ensures Valid() && Value() == UndoneOnce(old(Value()))
    {
      hide Separate, Undone, Entries;
      ghost var u, r := historyManager.undoStack, historyManager.redoStack;
      var command := historyManager.PopUndo();
      if command != null {
        MoveTop(u, r);
        state := command.Undo(state);
        EntriesAppend(u[..|u| - 1], command);
        EntriesAppend(r, command);
        assert u == u[..|u| - 1] + [command];
      }
    }

    method Redo()
      requires Valid()
      modifies this, historyManager, historyManager.redoStack
      ensures Valid() && Value() == RedoneOnce(old(Value()))
    {
      hide Separate, Executed, Entries;
      ghost var u, r := historyManager.undoStack, historyManager.redoStack;
      var command := historyManager.PopRedo();
      if command != null {
        MoveTop(r, u);
        OnlyOnTop(u, r);
        EntriesAppend(r[..|r| - 1], command);
        assert r == r[..|r| - 1] + [command];
        ghost var below, past := Entries(r[..|r| - 1]), Entries(u);
        state := command.Execute(state);
        assert Entries(r[..|r| - 1]) == below && Entries(u) == past;
        EntriesAppend(u, command);
      }
    }
  }
}
