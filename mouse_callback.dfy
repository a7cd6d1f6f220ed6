// The mouse-callback bridge of src/highgui.rs: a boxed (callback, user
// data) wrapper whose address is handed to the windowing system together
// with a fixed trampoline, and a handle whose drop unregisters and then
// frees it.

module MouseCallbacks {
  import opened Prim
  import opened HighGui

  /** The address of a heap allocation. */
  type Addr = nat

  /** The address of the user's callback function (a `MouseCallback<T>` fn pointer). */
  type FnPtr = nat

  /** The function pointers the bridge installs: only its trampoline. */
  datatype Trampoline = ExternMouseCallback

  /** A callback installed for a window: the function and its opaque user-data pointer. */
  datatype Installed = Installed(trampoline: Trampoline, userData: Addr)

  /** `MouseCallbackWrapper<T>`: the user callback and the captured user data. */
  datatype Wrapper<T> = Wrapper(callback: FnPtr, userData: T)

  /** One call of a user callback, with the arguments it received. */
  datatype Invocation<T> =
    Invocation(callback: FnPtr, event: MouseEventType, x: i32, y: i32, flags: MouseEventFlags, userData: T)

  /** No window's callback points at memory that is not allocated. */
  predicate NoDanglingPointers<T>(windows: map<string, Option<Installed>>, heap: map<Addr, Wrapper<T>>) {
    forall n :: n in windows && windows[n].Some? ==> windows[n].value.userData in heap
  }

  /**
   * Freeing a wrapper while a window still has it installed leaves that
   * window pointing at freed memory: the reason a handle unregisters first.
   */
  lemma FreeBeforeUnregisterDangles<T>(windows: map<string, Option<Installed>>, heap: map<Addr, Wrapper<T>>, name: string, a: Addr)
    requires name in windows && windows[name] == Some(Installed(ExternMouseCallback, a))
    ensures !NoDanglingPointers(windows, heap - {a})
  {
  }

  /**
   * The windowing system's per-window callback table and the process heap
   * of boxed wrappers, with a record of frees and of user-callback calls.
   */
  class Gui<T> {
    /** Each existing window, with the callback installed for it, if any. */
    var windows: map<string, Option<Installed>>
    /** The live `MouseCallbackWrapper` allocations. */
    var heap: map<Addr, Wrapper<T>>
    var nextAddr: Addr
    /** The window each live wrapper was registered for. */
    ghost var owner: map<Addr, string>
    /** Every wrapper freed so far, in order. */
    ghost var freed: seq<Addr>
    /** Every user-callback call so far, in order. */
    ghost var calls: seq<Invocation<T>>

    ghost predicate Valid()
      reads this
    {
      (forall a :: a in heap ==> a < nextAddr) &&
      (forall i :: 0 <= i < |freed| ==> freed[i] < nextAddr && freed[i] !in heap) &&
      (forall i, j :: 0 <= i < j < |freed| ==> freed[i] != freed[j]) &&
      heap.Keys == owner.Keys &&
      NoDanglingPointers(windows, heap) &&
      (forall n :: n in windows && windows[n].Some? ==> owner[windows[n].value.userData] == n)
    }

    constructor ()
      ensures Valid() && windows == map[] && heap == map[] && freed == [] && calls == []
    {
      windows, heap, nextAddr := map[], map[], 0;
      owner, freed, calls := map[], [], [];
    }

    /** `create_named_window`: adds a window without a callback, unless one of that name exists. */
    method CreateNamedWindow(name: string)
      requires Valid() && '\0' !in name
      modifies this
      ensures Valid() && heap == old(heap) && freed == old(freed) && calls == old(calls)
      ensures windows == if name in old(windows) then old(windows) else old(windows)[name := None]
    {
      if name !in windows {
        windows := windows[name := None];
      }
    }

    /** `destroy_window`: removes the window and whatever callback it had. */
    method DestroyWindow(name: string)
      requires Valid() && '\0' !in name
      modifies this
      ensures Valid() && heap == old(heap) && freed == old(freed) && calls == old(calls)
      ensures windows == old(windows) - {name}
    {
      windows := windows - {name};
    }

    /** `cv_set_mouse_callback`: installs (or clears) the callback of a window; no effect on an unknown name. */
    method SetNativeCallback(name: string, cb: Option<Installed>)
      modifies this`windows
      ensures windows == if name in old(windows) then old(windows)[name := cb] else old(windows)
    {
      if name in windows {
        windows := windows[name := cb];
      }
    }

    /**
     * `extern_mouse_callback`, the trampoline: revives the wrapper behind
     * `userData`, calls the user callback once with the decoded event and
     * the stored user data, and leaks the wrapper again (`mem::forget`), so
     * the heap is as it was.
     */
    method Trampoline(eventType: i32, x: i32, y: i32, eventFlags: i32, userData: Addr)
      requires Valid() && userData in heap && 0 <= eventType < 12
      modifies this`calls
      ensures Valid() && userData in heap && heap == old(heap)
      ensures calls == old(calls) + [Invocation(heap[userData].callback, EventTypeFromI32(eventType),
                                                x, y, FromBitsTruncate(I32Bits(eventFlags)), heap[userData].userData)]
    {
      var wrapper := heap[userData];
      var event := EventTypeFromI32(eventType);
      var flags := FromBitsTruncate(I32Bits(eventFlags));
      calls := calls + [Invocation(wrapper.callback, event, x, y, flags, wrapper.userData)];
    }

    /**
     * The windowing system delivering a mouse event on window `name`: the
     * installed trampoline, if any, is called with the stored pointer.
     */
    method DeliverEvent(name: string, eventType: i32, x: i32, y: i32, eventFlags: i32)
      requires Valid() && 0 <= eventType < 12
      modifies this`calls
      ensures Valid()
      ensures if name in windows && windows[name].Some?
              then (var w := heap[windows[name].value.userData];
                    calls == old(calls) + [Invocation(w.callback, EventTypeFromI32(eventType), x, y,
                                                      FromBitsTruncate(I32Bits(eventFlags)), w.userData)])
              else calls == old(calls)
    {
      if name in windows && windows[name].Some? {
        Trampoline(eventType, x, y, eventFlags, windows[name].value.userData);
      }
    }
  }

  /** `MouseCallbackHandle<T>`: owns one registered wrapper. */
  class MouseCallbackHandle<T> {
    const gui: Gui<T>
    const wrapper: Addr
    const name: string

    ghost predicate Valid()
      reads this, gui
    {
      gui.Valid() && wrapper in gui.heap && gui.owner[wrapper] == name
    }

    constructor (gui: Gui<T>, wrapper: Addr, name: string)
      ensures this.gui == gui && this.wrapper == wrapper && this.name == name
    {
      this.gui, this.wrapper, this.name := gui, wrapper, name;
    }

    /**
     * `Drop for MouseCallbackHandle`: first clears the window's callback,
     * then frees the wrapper. Afterwards no window refers to it, and it has
     * been freed exactly once.
     */
    method Drop()
      requires Valid()
      modifies gui
      ensures gui.Valid()
      ensures gui.windows == if name in old(gui.windows) then old(gui.windows)[name := None] else old(gui.windows)
      ensures gui.heap == old(gui.heap) - {wrapper}
      ensures wrapper !in old(gui.freed) && gui.freed == old(gui.freed) + [wrapper]
      ensures forall n :: n in gui.windows && gui.windows[n].Some? ==> gui.windows[n].value.userData != wrapper
      ensures gui.calls == old(gui.calls)
    {
      gui.SetNativeCallback(name, None);
      // Box::from_raw(self.wrapper) goes out of scope: the wrapper is freed
      gui.heap := gui.heap - {wrapper};
      gui.owner := gui.owner - {wrapper};
      gui.freed := gui.freed + [wrapper];
    }
  }

  /**
   * `set_mouse_callback`: boxes the callback and the user data in one new
   * allocation and installs the trampoline with its address for `name`.
   * A name holding a NUL byte makes the source panic, hence the requires.
   */
  method SetMouseCallback<T>(gui: Gui<T>, name: string, callback: FnPtr, userData: T)
    returns (h: MouseCallbackHandle<T>)
    requires gui.Valid() && '\0' !in name
    modifies gui
    ensures fresh(h) && h.gui == gui && h.name == name && h.Valid()
    ensures h.wrapper !in old(gui.heap) && h.wrapper !in old(gui.freed)
    ensures gui.heap == old(gui.heap)[h.wrapper := Wrapper(callback, userData)]
    ensures gui.windows == if name in old(gui.windows)
                           then old(gui.windows)[name := Some(Installed(ExternMouseCallback, h.wrapper))]
                           else old(gui.windows)
    ensures gui.freed == old(gui.freed) && gui.calls == old(gui.calls)
  {
    // Box::into_raw(Box::new(MouseCallbackWrapper { callback, user_data }))
    var raw := gui.nextAddr;
    gui.heap := gui.heap[raw := Wrapper(callback, userData)];
    gui.owner := gui.owner[raw := name];
    gui.nextAddr := gui.nextAddr + 1;
    gui.SetNativeCallback(name, Some(Installed(ExternMouseCallback, raw)));
    h := new MouseCallbackHandle(gui, raw, name);
  }

  /** A mouse event as the windowing system reports it. */
  datatype MouseInput = MouseInput(eventType: i32, x: i32, y: i32, flags: i32)

  predicate WellFormed(e: MouseInput) {
    0 <= e.eventType < 12
  }

  /** The user-callback call a registered wrapper produces for one event. */
  function CallFor<T>(w: Wrapper<T>, e: MouseInput): Invocation<T>
    requires WellFormed(e)
  {
    Invocation(w.callback, EventTypeFromI32(e.eventType), e.x, e.y, FromBitsTruncate(I32Bits(e.flags)), w.userData)
  }

  /**
   * The windowing system delivering `events`, in order, on window `name`:
   * with a callback installed, the user callback runs once per event with
   * that event's arguments; without one, nothing runs.
   */
  method DeliverAll<T>(gui: Gui<T>, name: string, events: seq<MouseInput>)
    requires gui.Valid()
    requires forall i :: 0 <= i < |events| ==> WellFormed(events[i])
    modifies gui`calls
    ensures gui.Valid()
    ensures name in gui.windows && gui.windows[name].Some? ==>
              var w := gui.heap[gui.windows[name].value.userData];
              |gui.calls| == |old(gui.calls)| + |events| && gui.calls[..|old(gui.calls)|] == old(gui.calls) &&
              forall k :: 0 <= k < |events| ==> gui.calls[|old(gui.calls)| + k] == CallFor(w, events[k])
    ensures !(name in gui.windows && gui.windows[name].Some?) ==> gui.calls == old(gui.calls)
  {
    var i := 0;
    while i < |events|
      invariant 0 <= i <= |events| && gui.Valid()
      invariant name in gui.windows && gui.windows[name].Some? ==>
                  var w := gui.heap[gui.windows[name].value.userData];
                  |gui.calls| == |old(gui.calls)| + i && gui.calls[..|old(gui.calls)|] == old(gui.calls) &&
                  forall k :: 0 <= k < i ==> gui.calls[|old(gui.calls)| + k] == CallFor(w, events[k])
      invariant !(name in gui.windows && gui.windows[name].Some?) ==> gui.calls == old(gui.calls)
    {
      gui.DeliverEvent(name, events[i].eventType, events[i].x, events[i].y, events[i].flags);
      i := i + 1;
    }
  }

  /**
   * The lifecycle of one registration: register a callback on an existing
   * window, deliver `before` to it, drop the handle, deliver `after`. The
   * user callback runs exactly once per event before the drop and never
   * after it, and the wrapper is freed exactly once.
   */
  method RegisterDeliverDrop<T>(gui: Gui<T>, name: string, callback: FnPtr, userData: T,
                                before: seq<MouseInput>, after: seq<MouseInput>)
    requires gui.Valid() && '\0' !in name && name in gui.windows
    requires forall i :: 0 <= i < |before| ==> WellFormed(before[i])
    requires forall i :: 0 <= i < |after| ==> WellFormed(after[i])
    modifies gui
    ensures gui.Valid() && gui.heap == old(gui.heap)
    ensures |gui.calls| == |old(gui.calls)| + |before| && gui.calls[..|old(gui.calls)|] == old(gui.calls)
    ensures forall i :: 0 <= i < |before| ==>
              gui.calls[|old(gui.calls)| + i] == CallFor(Wrapper(callback, userData), before[i])
    ensures exists a :: a !in old(gui.heap) && gui.freed == old(gui.freed) + [a]
  {
    var h := SetMouseCallback(gui, name, callback, userData);
    DeliverAll(gui, name, before);
    h.Drop();
    DeliverAll(gui, name, after);
  }
}
