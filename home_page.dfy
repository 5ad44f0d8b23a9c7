/** The state of the Home component (src/app/page.js) and its handlers: the
    mount effect that rehydrates from local storage, the input's change
    handler, `addTask` and `handleDelete`. Each handler is one atomic step
    over the state it captured before the call. */
module HomePage {
  import opened TaskModel

  /** The browser's local storage, reduced to the one key the page uses,
      `"tasks"`; `None` when the key is absent. The stored text is taken as
      its parsed value. */
  class Storage {
    var saved: Option<seq<Task>>

    constructor (initial: Option<seq<Task>>)
      ensures saved == initial
    {
      saved := initial;
    }
  }

  class Home {
    const store: Storage
    var tasks: seq<Task>
    var draft: string
    var nextId: int

    /** The counter is above every id on display. */
    ghost predicate Valid()
      reads this
    {
      IdsBelow(tasks, nextId)
    }

    /** The component as first rendered: the `useState` defaults. */
    constructor (store: Storage)
      ensures Valid()
      ensures this.store == store
      ensures tasks == [] && draft == "" && nextId == 1
    {
      this.store := store;
      tasks := [];
      draft := "";
      nextId := 1;
    }

    /** The mount effect: load the saved sequence (an absent key gives the
        empty one) and set the counter one above the largest saved id, or to 1
        when there is none. Storage is only read. */
    method Load()
      modifies this
      ensures Valid()
      ensures store.saved.None? ==> tasks == []
      ensures store.saved.Some? ==> tasks == store.saved.value
      ensures nextId == MaxId(tasks) + 1
      ensures tasks == [] ==> nextId == 1
      ensures draft == old(draft)
    {
      var loaded := match store.saved
        case None => []
        case Some(ts) => ts;
      tasks := loaded;
      nextId := MaxId(loaded) + 1;
    }

    /** The input's change handler: the draft becomes the typed text, with no
        validation. */
    method SetDraft(text: string)
      requires Valid()
      modifies this
      ensures Valid()
      ensures draft == text
      ensures tasks == old(tasks) && nextId == old(nextId)
    {
      draft := text;
    }

    /** `addTask`: append `{ id: nextId, title: draft, description: "" }`,
        whatever the draft (an empty one included), bump the counter by one,
        clear the draft and save the new sequence. */
    method AddTask()
      requires Valid()
      modifies this, store
      ensures Valid()
      ensures tasks == Append(old(tasks), Task(old(nextId), old(draft), ""))
      ensures nextId == old(nextId) + 1
      ensures draft == ""
      ensures store.saved == Some(tasks)
      ensures DistinctIds(old(tasks)) ==> DistinctIds(tasks)
      ensures IncreasingIds(old(tasks)) ==> IncreasingIds(tasks)
    {
      var newTask := Task(nextId, draft, "");
      var updated := Append(tasks, newTask);
      AppendKeepsIds(tasks, newTask);
      tasks := updated;
      draft := "";
      nextId := nextId + 1;
      store.saved := Some(updated);
    }

    /** `handleDelete(index)`: drop the task at zero-based position `index`
        keeping the order of the rest (nothing when `index` is out of range),
        leave the counter and the draft alone and save the result. */
    method Delete(index: int)
      requires Valid()
      modifies this, store
      ensures Valid()
      ensures tasks == RemoveAt(old(tasks), index)
      ensures 0 <= index < |old(tasks)| ==>
                tasks == old(tasks)[..index] + old(tasks)[index + 1..]
      ensures !(0 <= index < |old(tasks)|) ==> tasks == old(tasks)
      ensures nextId == old(nextId) && draft == old(draft)
      ensures store.saved == Some(tasks)
      ensures DistinctIds(old(tasks)) ==> DistinctIds(tasks)
      ensures IncreasingIds(old(tasks)) ==> IncreasingIds(tasks)
    {
      var remaining := RemoveAt(tasks, index);
      RemoveAtKeepsIds(tasks, index, nextId);
      tasks := remaining;
      store.saved := Some(remaining);
    }
  }

  /** An empty store gives counter 1; adding "Buy milk" yields one task with
      id 1, clears the draft and moves the counter to 2; a reload reads the
      same sequence back. */
  method AddToEmptyStore()
  {
    var store := new Storage(None);
    var home := new Home(store);
    home.Load();
    assert home.nextId == 1;
    home.SetDraft("Buy milk");
    home.AddTask();
    assert home.tasks == [Task(1, "Buy milk", "")];
    assert home.draft == "" && home.nextId == 2;
    var reloaded := new Home(store);
    reloaded.Load();
    assert reloaded.tasks == home.tasks && reloaded.nextId == 2;
  }

  /** Deleting position 1 of tasks 1, 2, 3 leaves tasks 1 and 3. */
  method DeleteMiddle()
  {
    var t1, t2, t3 := Task(1, "a", ""), Task(2, "b", ""), Task(3, "c", "");
    var store := new Storage(Some([t1, t2, t3]));
    var home := new Home(store);
    home.Load();
    home.Delete(1);
    assert home.tasks == [t1, t3];
    home.Delete(5);
    assert home.tasks == [t1, t3];
  }

  /** A saved task with id 5 sets the counter to 6. */
  method LoadSavedId()
  {
    var store := new Storage(Some([Task(5, "x", "")]));
    var home := new Home(store);
    home.Load();
    assert home.nextId == 6;
  }
}
