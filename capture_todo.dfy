/**
 * The to-do capture screen: a list of entry fields that grows as the last one
 * is used, and a submit that stores one to-do record per non-blank entry.
 */
module CaptureTodos {
  import opened Options
  import opened Text
  import opened OutboxItems
  import opened Stores

  /** Every entry trimmed, in order: the `map` of `submit()`. */
  function TrimAll(todos: seq<string>): (r: seq<string>)
    ensures |r| == |todos|
  {
    if todos == [] then [] else [Trim(todos[0])] + TrimAll(todos[1..])
  }

  /** Each entry of the trimmed list is its entry trimmed. */
  lemma {:induction false} TrimAllAt(todos: seq<string>, k: nat)
    requires k < |todos|
    ensures TrimAll(todos)[k] == Trim(todos[k])
  {
    if k > 0 {
      TrimAllAt(todos[1..], k - 1);
    }
  }

  /** The empty strings dropped, in order: the `filter` of `submit()`. */
  function DropEmpty(ts: seq<string>): (r: seq<string>)
    ensures |r| <= |ts|
    ensures forall k | 0 <= k < |r| :: r[k] != ""
  {
    if ts == [] then []
    else (if ts[0] == "" then [] else [ts[0]]) + DropEmpty(ts[1..])
  }

  /** The entries `submit()` stores: trimmed, blank ones dropped, in list
      order. */
  function NonEmptyTodos(todos: seq<string>): (r: seq<string>) {
    DropEmpty(TrimAll(todos))
  }

  /** Dropping empty strings from two parts is dropping them from each. */
  lemma {:induction false} DropEmptyAppend(a: seq<string>, b: seq<string>)
    ensures DropEmpty(a + b) == DropEmpty(a) + DropEmpty(b)
  {
    if a == [] {
      assert a + b == b;
    } else {
      var head := if a[0] == "" then [] else [a[0]];
      calc {
        DropEmpty(a + b);
        { assert (a + b)[0] == a[0] && (a + b)[1..] == a[1..] + b; }
        head + DropEmpty(a[1..] + b);
        { DropEmptyAppend(a[1..], b); }
        head + (DropEmpty(a[1..]) + DropEmpty(b));
        DropEmpty(a) + DropEmpty(b);
      }
    }
  }

  /** The entries of a list made of two parts are those of the first part
      followed by those of the second: the order of the list is kept. */
  lemma NonEmptyTodosAppend(a: seq<string>, b: seq<string>)
    ensures NonEmptyTodos(a + b) == NonEmptyTodos(a) + NonEmptyTodos(b)
  {
    TrimAllAppend(a, b);
    DropEmptyAppend(TrimAll(a), TrimAll(b));
  }

  /** Trimming every entry of two parts is trimming each part. */
  lemma {:induction false} TrimAllAppend(a: seq<string>, b: seq<string>)
    ensures TrimAll(a + b) == TrimAll(a) + TrimAll(b)
  {
    if a == [] {
      assert a + b == b;
    } else {
      calc {
        TrimAll(a + b);
        { assert (a + b)[0] == a[0] && (a + b)[1..] == a[1..] + b; }
        [Trim(a[0])] + TrimAll(a[1..] + b);
        { TrimAllAppend(a[1..], b); }
        [Trim(a[0])] + (TrimAll(a[1..]) + TrimAll(b));
        TrimAll(a) + TrimAll(b);
      }
    }
  }

  /** One entry yields its trimming, unless that is empty. */
  lemma NonEmptyTodosSingle(todo: string)
    ensures NonEmptyTodos([todo]) == if Trim(todo) == "" then [] else [Trim(todo)]
  {
    assert TrimAll([todo]) == [Trim(todo)];
    assert [Trim(todo)][1..] == [];
  }

  /** Nothing is left after dropping exactly when every string is empty. */
  lemma {:induction false} DropEmptyEmptyIff(ts: seq<string>)
    ensures DropEmpty(ts) == [] <==> forall k | 0 <= k < |ts| :: ts[k] == ""
  {
    if ts != [] {
      DropEmptyEmptyIff(ts[1..]);
      assert forall k | 0 <= k < |ts| - 1 :: ts[1..][k] == ts[k + 1];
      if ts[0] == "" && DropEmpty(ts[1..]) == [] {
        forall k | 0 <= k < |ts| ensures ts[k] == "" {
          if k > 0 { assert ts[k] == ts[1..][k - 1]; }
        }
      }
    }
  }

  /** Every entry is whitespace only. */
  predicate AllBlank(todos: seq<string>) {
    forall k | 0 <= k < |todos| :: AllWhitespace(todos[k])
  }

  /** Nothing is left exactly when every entry is whitespace only. */
  lemma NonEmptyTodosEmptyIff(todos: seq<string>)
    ensures NonEmptyTodos(todos) == [] <==> AllBlank(todos)
  {
    var ts := TrimAll(todos);
    DropEmptyEmptyIff(ts);
    forall k | 0 <= k < |todos| ensures ts[k] == "" <==> AllWhitespace(todos[k]) {
      TrimAllAt(todos, k);
      TrimEmptyIff(todos[k]);
    }
  }

  /** The outbox after `todos` are inserted, in order, under `ids`, at `now`. */
  function WithTodos(items: map<Uuid, OutboxItem>, ids: seq<Uuid>, todos: seq<string>, now: int): map<Uuid, OutboxItem>
    requires |ids| == |todos|
    decreases |ids|
  {
    if ids == [] then items
    else WithTodos(items[ids[0] := NewItem(ids[0], todos[0], Todo, now)], ids[1..], todos[1..], now)
  }

  /** Inserting to-dos under distinct fresh identifiers adds exactly those
      records, each a new to-do holding its entry, and keeps every other
      record. */
  lemma {:induction false} WithTodosAdds(items: map<Uuid, OutboxItem>, ids: seq<Uuid>, todos: seq<string>, now: int)
    requires |ids| == |todos|
    requires forall i, j | 0 <= i < j < |ids| :: ids[i] != ids[j]
    requires forall i | 0 <= i < |ids| :: ids[i] !in items
    decreases |ids|
    ensures var r := WithTodos(items, ids, todos, now);
            && r.Keys == items.Keys + (set i | 0 <= i < |ids| :: ids[i])
            && (forall id | id in items :: r[id] == items[id])
            && (forall i | 0 <= i < |ids| :: r[ids[i]] == NewItem(ids[i], todos[i], Todo, now))
  {
    if ids != [] {
      var next := items[ids[0] := NewItem(ids[0], todos[0], Todo, now)];
      WithTodosAdds(next, ids[1..], todos[1..], now);
      var r := WithTodos(items, ids, todos, now);
      assert (set i | 0 <= i < |ids| :: ids[i]) == {ids[0]} + (set i | 0 <= i < |ids[1..]| :: ids[1..][i]);
      forall i | 0 <= i < |ids| ensures r[ids[i]] == NewItem(ids[i], todos[i], Todo, now) {
        if i > 0 {
          assert ids[i] == ids[1..][i - 1] && todos[i] == todos[1..][i - 1];
        }
      }
    }
  }

  class CaptureTodoScreen {
    const store: Store
    var todos: seq<string>
    var focusedIndex: Option<nat>
    /** Whether the screen has been dismissed. */
    var dismissed: bool

    /** The screen as it opens: one empty entry, nothing focused. */
    constructor (store: Store)
      ensures this.store == store && todos == [""] && focusedIndex.None? && !dismissed
    {
      this.store := store;
      todos, focusedIndex, dismissed := [""], None, false;
    }

    /** `onSubmit` of the entry at `index`: focus moves to the next entry, and
        from the last entry a new empty entry is appended and focused. */
    method OnSubmit(index: nat)
      requires index < |todos|
      modifies this`todos, this`focusedIndex
      ensures index < |old(todos)| - 1 ==> todos == old(todos) && focusedIndex == Some(index + 1)
      ensures index == |old(todos)| - 1 ==> todos == old(todos) + [""] && focusedIndex == Some(|todos| - 1)
    {
      if index < |todos| - 1 {
        focusedIndex := Some(index + 1);
      } else {
        todos := todos + [""];
        focusedIndex := Some(|todos| - 1);
      }
    }

    /** `onChange` of the entry at `index`, after the edit: typing into the last
        entry appends one empty entry; the entries already there stay. */
    method OnChange(index: nat)
      requires index < |todos|
      modifies this`todos
      ensures todos == if index == |old(todos)| - 1 && old(todos)[index] != "" then old(todos) + [""] else old(todos)
    {
      if index == |todos| - 1 && todos[index] != "" {
        todos := todos + [""];
      }
    }

    /** `submit()`: with no non-blank entry nothing happens; otherwise one new
        to-do per non-blank entry is inserted, trimmed, in list order, under the
        fresh identifiers `ids`, and the screen is dismissed. */
    method Submit(ids: seq<Uuid>, now: int)
      requires store.Valid()
      requires |ids| == |NonEmptyTodos(todos)|
      requires forall i, j | 0 <= i < j < |ids| :: ids[i] != ids[j]
      requires forall i | 0 <= i < |ids| :: ids[i] !in store.items
      modifies store`items, this`dismissed
      ensures store.Valid()
      ensures NonEmptyTodos(todos) == [] ==> store.items == old(store.items) && dismissed == old(dismissed)
      ensures NonEmptyTodos(todos) != [] ==>
                store.items == WithTodos(old(store.items), ids, NonEmptyTodos(todos), now) && dismissed
    {
      var nonEmptyTodos := NonEmptyTodos(todos);
      if nonEmptyTodos == [] {
        return;
      }
      ghost var items0 := store.items;
      for k := 0 to |nonEmptyTodos|
        invariant store.Valid()
        invariant WithTodos(items0, ids, nonEmptyTodos, now) == WithTodos(store.items, ids[k..], nonEmptyTodos[k..], now)
        invariant forall i | k <= i < |ids| :: ids[i] !in store.items
      {
        var item := NewItem(ids[k], nonEmptyTodos[k], Todo, now);
        store.InsertItem(item);
        assert ids[k..][1..] == ids[k + 1..] && nonEmptyTodos[k..][1..] == nonEmptyTodos[k + 1..];
      }
      dismissed := true;
    }
  }
}
