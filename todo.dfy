/** The todo service: todos kept under integer keys drawn from a counter that
    only grows, listed in the order they were inserted (the order a Python
    dict keeps) and paged with Python slice semantics. */
module Todo {
  import opened Outcomes

  /** `id` is None in a request body until the service assigns it. */
  datatype TodoItem = TodoItem(id: Option<int>, title: string, description: Option<string>, completed: bool)

  function Min(a: int, b: int): int { if a <= b then a else b }

  function Max(a: int, b: int): int { if a <= b then b else a }

  // ---------------------------------------------------------------------
  // Python slicing

  /** How Python reads one bound of `s[start:stop]` for a list of length n:
      a negative bound counts from the end, and the result is clamped to 0..n. */
  function SliceBound(i: int, n: nat): (b: nat)
    ensures b <= n
  {
    if i < 0 then (if i + n < 0 then 0 else i + n) else if i > n then n else i
  }

  /** Python's `s[start:stop]`: empty when the normalised bounds cross. */
  function PySlice<T>(s: seq<T>, start: int, stop: int): seq<T>
  {
    var lo, hi := SliceBound(start, |s|), SliceBound(stop, |s|);
    if lo < hi then s[lo..hi] else []
  }

  /** With non-negative skip and limit, a page holds the elements from
      position skip on, at most limit of them. */
  lemma PageOf<T>(s: seq<T>, skip: int, limit: int)
    requires skip >= 0 && limit >= 0
    ensures var page := PySlice(s, skip, skip + limit);
            |page| == Min(limit, Max(0, |s| - skip)) &&
            forall i :: 0 <= i < |page| ==> page[i] == s[skip + i]
  {
  }

  /** Fifteen todos paged with skip 10 and limit 10 give the 11th to the 15th. */
  lemma PageExample<T>(s: seq<T>)
    requires |s| == 15
    ensures PySlice(s, 10, 10 + 10) == s[10..15]
  {
  }

  // ---------------------------------------------------------------------
  // Insertion order

  /** Strictly ascending keys. */
  ghost predicate Increasing(keys: seq<int>)
  {
    forall i, j :: 0 <= i < j < |keys| ==> keys[i] < keys[j]
  }

  /** The stored todos, key by key in the given order. */
  function InOrder(todos: map<int, TodoItem>, order: seq<int>): (r: seq<TodoItem>)
    requires forall i :: 0 <= i < |order| ==> order[i] in todos
    ensures |r| == |order|
    ensures forall i :: 0 <= i < |order| ==> r[i] == todos[order[i]]
  {
    if order == [] then [] else [todos[order[0]]] + InOrder(todos, order[1..])
  }

  /** The keys without `key`, the others in their order. */
  function Without(keys: seq<int>, key: int): (r: seq<int>)
    ensures forall k :: k in r <==> k in keys && k != key
  {
    if keys == [] then []
    else (if keys[0] == key then [] else [keys[0]]) + Without(keys[1..], key)
  }

  /** In ascending keys, deleting the key at position i removes that one
      position and leaves the rest in order. */
  lemma {:induction false} WithoutAt(keys: seq<int>, i: nat)
    requires Increasing(keys) && i < |keys|
    ensures Without(keys, keys[i]) == keys[..i] + keys[i + 1..]
  {
    var key := keys[i];
    if i == 0 {
      assert key !in keys[1..];
      WithoutAbsent(keys[1..], key);
    } else {
      assert Increasing(keys[1..]);
      WithoutAt(keys[1..], i - 1);
      assert keys[1..][i - 1] == key;
      assert keys[0] != key;
      assert keys[..i] == [keys[0]] + keys[1..][..i - 1];
      assert keys[i + 1..] == keys[1..][i..];
    }
  }

  /** Deleting an absent key changes nothing. */
  lemma {:induction false} WithoutAbsent(keys: seq<int>, key: int)
    requires key !in keys
    ensures Without(keys, key) == keys
  {
    if keys != [] {
      WithoutAbsent(keys[1..], key);
    }
  }

  /** Deleting keeps the keys ascending. */
  lemma {:induction false} WithoutKeepsIncreasing(keys: seq<int>, key: int)
    requires Increasing(keys)
    ensures Increasing(Without(keys, key))
  {
    if keys != [] {
      assert Increasing(keys[1..]);
      WithoutKeepsIncreasing(keys[1..], key);
      var tail := Without(keys[1..], key);
      if keys[0] != key {
        var r := [keys[0]] + tail;
        assert Without(keys, key) == r;
        forall i, j | 0 <= i < j < |r| ensures r[i] < r[j] {
          assert r[j] == tail[j - 1] && r[j] in keys[1..];
          if i > 0 {
            assert r[i] == tail[i - 1];
          }
        }
      } else {
        assert Without(keys, key) == tail;
      }
    }
  }

  // ---------------------------------------------------------------------
  // The store

  class TodoStore {
    /** The `todos` dict. */
    var todos: map<int, TodoItem>
    /** The keys of `todos` in insertion order. */
    var order: seq<int>
    /** The last key handed out. */
    var counter: int

    /** The insertion order lists each key once, in ascending order, and
        nothing else; every key lies in 1..counter and the stored todo
        carries its key as its id. */
    ghost predicate Valid()
      reads this
    {
      Increasing(order) &&
      (forall i :: 0 <= i < |order| ==> order[i] in todos) &&
      (forall k :: k in todos ==> k in order) &&
      (forall k :: k in todos ==> 1 <= k <= counter && todos[k].id == Some(k)) &&
      counter >= 0
    }

    constructor ()
      ensures Valid()
      ensures todos == map[] && order == [] && counter == 0
    {
      todos, order, counter := map[], [], 0;
    }

    /** create_todo: stores the todo under the next counter value, with that
        value as its id, at the end of the insertion order. */
    method CreateTodo(todo: TodoItem) returns (t: TodoItem)
      requires Valid()
      modifies this
      ensures Valid()
      ensures counter == old(counter) + 1
      ensures t == todo.(id := Some(counter))
      ensures forall k :: k in old(todos) ==> k < counter
      ensures todos == old(todos)[counter := t] && order == old(order) + [counter]
      ensures ReadTodo(counter) == Ok(t)
    {
      counter := counter + 1;
      t := todo.(id := Some(counter));
      todos := todos[counter := t];
      order := order + [counter];
    }

    /** read_todos: the stored todos in insertion order, sliced to
        [skip, skip + limit) as Python slices a list. */
    function ReadTodos(skip: int := 0, limit: int := 10): (r: seq<TodoItem>)
      requires Valid()
      reads this
      ensures skip >= 0 && limit >= 0 ==>
                |r| == Min(limit, Max(0, |order| - skip)) &&
                forall i :: 0 <= i < |r| ==> skip + i < |order| && r[i] == todos[order[skip + i]] && r[i].id == Some(order[skip + i])
    {
      PySlice(InOrder(todos, order), skip, skip + limit)
    }

    /** read_todo: the todo stored under the key, which carries the key as its
        id; NotFound when there is none. */
    function ReadTodo(todoId: int): (r: Result<TodoItem>)
      reads this
      ensures r.Ok? <==> todoId in todos
      ensures r.Ok? ==> r.value == todos[todoId]
      ensures r.Err? ==> r.error == NotFound
      ensures Valid() && r.Ok? ==> r.value.id == Some(todoId)
    {
      if todoId in todos then Ok(todos[todoId]) else Err(NotFound)
    }

    /** update_todo: replaces the whole todo under an existing key, its id
        forced to the key; keys, order and counter stay as they are. */
    method UpdateTodo(todoId: int, todo: TodoItem) returns (r: Result<TodoItem>)
      requires Valid()
      modifies this
      ensures Valid()
      ensures r.Ok? <==> todoId in old(todos)
      ensures r.Ok? ==> r.value == todo.(id := Some(todoId)) && todos == old(todos)[todoId := r.value]
      ensures r.Err? ==> r.error == NotFound && todos == old(todos)
      ensures order == old(order) && counter == old(counter)
    {
      if todoId !in todos {
        return Err(NotFound);
      }
      var t := todo.(id := Some(todoId));
      todos := todos[todoId := t];
      return Ok(t);
    }

    /** delete_todo: removes the key and its todo; the other keys keep their
        order and the counter is untouched, so the key is never handed out again. */
    method DeleteTodo(todoId: int) returns (r: Result<()>)
      requires Valid()
      modifies this
      ensures Valid()
      ensures r.Ok? <==> todoId in old(todos)
      ensures r.Ok? ==> todos == old(todos) - {todoId} && order == Without(old(order), todoId)
      ensures r.Ok? ==> exists i :: 0 <= i < |old(order)| && old(order)[i] == todoId &&
                                   order == old(order)[..i] + old(order)[i + 1..]
      ensures r.Err? ==> r.error == NotFound && todos == old(todos) && order == old(order)
      ensures counter == old(counter)
    {
      if todoId !in todos {
        return Err(NotFound);
      }
      ghost var i :| 0 <= i < |order| && order[i] == todoId;
      WithoutAt(order, i);
      WithoutKeepsIncreasing(order, todoId);
      todos := todos - {todoId};
      order := Without(order, todoId);
      forall i | 0 <= i < |order| ensures order[i] in todos {
        assert order[i] in order;
      }
      return Ok(());
    }
  }

  /** A created todo reads back until it is deleted; a deleted key is not
      found, and the next todo gets a key never used before. */
  method TodoScenario(a: TodoItem, b: TodoItem)
  {
    var store := new TodoStore();
    var first := store.CreateTodo(a);
    var second := store.CreateTodo(b);
    assert first.id == Some(1) && second.id == Some(2);
    assert store.ReadTodo(1) == Ok(first);
    var updated := store.UpdateTodo(2, a);
    assert store.ReadTodo(1) == Ok(first);
    var deleted := store.DeleteTodo(1);
    assert deleted.Ok? && store.ReadTodo(1) == Err(NotFound);
    var again := store.DeleteTodo(1);
    assert again == Err(NotFound);
    var third := store.CreateTodo(a);
    assert third.id == Some(3);
    var page := store.ReadTodos();
    assert |page| == 2 && page[1] == third;
  }
}
