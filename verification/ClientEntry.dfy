/**
  `client_entry` as the object it is, with the part of the dispatcher queue that its tasks use. Each task is
  proved to do what Reconciler says on values. Its `io_service_client`s are held by value here; IoServiceClient
  has them as objects.
 */
module ClientEntry {
  import opened Wrappers
  import opened Protocol
  import opened Sequences
  import IoService
  import opened Reconciler
  import ReconcilerInvariant

  /** The dispatcher: immediate jobs before delayed ones, each in the order in which they were enqueued. */
  class Dispatcher {
    var now: nat
    var nextId: ObjectId
    var ready: seq<Job>
    var timers: seq<Timer>

    constructor ()
      ensures now == 0 && nextId == 2 && ready == [] && timers == []
    {
      now, nextId, ready, timers := 0, 2, [], [];
    }

    method Enqueue(job: Job)
      modifies this`ready
      ensures ready == old(ready) + [job]
    {
      ready := ready + [job];
    }

    /** `detach_from_dispatcher`: the jobs of an object leave the queue. */
    method Detach(owner: ObjectId)
      modifies this`ready
      ensures ready == Without(old(ready), owner)
    {
      var kept: seq<Job> := [];
      for i := 0 to |ready|
        invariant kept == Without(ready[..i], owner)
      {
        assert Front(ready[..i + 1]) == ready[..i];
        if ready[i].owner != owner {
          kept := kept + [ready[i]];
        }
      }
      assert ready[..|ready|] == ready;
      ready := kept;
    }
  }

  class Entry {
    const dispatcher: Dispatcher
    var status: Client
    var keyboard: Slot
    var pointing: Slot
    var parameters: Parameters
    var lastResponse: Option<Status>

    /** What has happened, for the statements about runs. */
    ghost var history: History

    ghost function View(): Reconciler.Entry
      reads this, dispatcher
    {
      Reconciler.Entry(dispatcher.now, dispatcher.nextId, dispatcher.ready, dispatcher.timers,
                       status, keyboard, pointing, parameters, lastResponse, history)
    }

    constructor (dispatcher: Dispatcher)
      requires dispatcher.now == 0 && dispatcher.nextId == 2 && dispatcher.ready == [] && dispatcher.timers == []
      modifies dispatcher
      ensures View() == INITIAL
    {
      this.dispatcher := dispatcher;
      status := Client(STATUS, 0, DEFAULT_PARAMETERS, IoService.INITIAL);
      keyboard, pointing := Slot(false, 0, None), Slot(false, 0, None);
      parameters, lastResponse := DEFAULT_PARAMETERS, None;
      history := History([], [], [], [], map[STATUS := []], map[STATUS := DEFAULT_PARAMETERS]);
      new;
      dispatcher.Enqueue(Job(STATUS, Start));
      dispatcher.Enqueue(Job(ENTRY, CheckStatus));
    }

    method GetSlot(d: Device) returns (slot: Slot)
      ensures slot == SlotOf(View(), d)
    {
      slot := if d.Keyboard? then keyboard else pointing;
    }

    method SetSlot(d: Device, slot: Slot)
      modifies this`keyboard, this`pointing
      ensures View() == WithSlot(old(View()), d, slot)
    {
      if d.Keyboard? { keyboard := slot; } else { pointing := slot; }
    }

    /** `virtual_hid_keyboard_ready` and `virtual_hid_pointing_ready`. */
    method IsDeviceReady(d: Device) returns (ready: bool)
      ensures ready == IsReady(View(), d)
    {
      var slot := GetSlot(d);
      ready := slot.client.Some? && IoService.ShownReady(slot.client.value.io, d) == Some(true);
    }

    method BuildResponse(activated: bool) returns (response: Status)
      ensures response == MakeResponse(View(), activated)
    {
      var keyboardReady := IsDeviceReady(Keyboard);
      var pointingReady := IsDeviceReady(Pointing);
      response := Status(activated, IoService.Connected(status.io), IoService.Mismatched(status.io), keyboardReady, pointingReady);
    }

    /** `check_status_changed`: pushes the status if it differs from the last one pushed. */
    method CheckStatusChange(activated: bool) returns (push: Option<Status>)
      modifies this`lastResponse, this`history
      ensures View() == CheckStatusChanged(old(View()), activated)
      ensures push == if old(lastResponse) == Some(MakeResponse(old(View()), activated)) then None else lastResponse
    {
      var response := BuildResponse(activated);
      history := history.(samples := history.samples + [response]);
      push := None;
      if lastResponse != Some(response) {
        lastResponse := Some(response);
        history := history.(pushes := history.pushes + [response]);
        push := lastResponse;
      }
    }

    /** `client = nullptr`: the client's jobs leave the queue, and its destructor closes what it has open. */
    method ResetClient(d: Device)
      modifies this, dispatcher
      ensures View() == Destroy(old(View()), d)
    {
      var slot := GetSlot(d);
      if slot.client.Some? {
        var client := slot.client.value;
        SetSlot(d, slot.(client := None));
        dispatcher.Detach(client.id);
        var effects := IoService.Shutdown(client.io).effects;
        ReconcilerInvariant.ShutdownSilent(client.io, client.id);
        assert dispatcher.ready + [] == dispatcher.ready;
        history := history.(trace := history.trace + Tag(client.id, effects));
      }
    }

    method CreateClient(d: Device)
      modifies this, dispatcher
      ensures View() == Create(old(View()), d)
    {
      var slot := GetSlot(d);
      var generation := slot.generation + 1;
      var client := Client(dispatcher.nextId, generation, parameters, IoService.INITIAL);
      dispatcher.nextId := dispatcher.nextId + 1;
      SetSlot(d, Slot(slot.enabled, generation, Some(client)));
      history := history.(runs := history.runs[client.id := []], births := history.births[client.id := client.parameters]);
      dispatcher.Enqueue(Job(client.id, Start));
      dispatcher.timers := dispatcher.timers + [Timer(dispatcher.now + CHECK_DELAY, d, generation, client.id)];
    }

    method SetupOneDevice(d: Device)
      modifies this, dispatcher
      ensures View() == SetupDevice(old(View()), d)
    {
      var slot := GetSlot(d);
      if slot.enabled {
        var ready := IsDeviceReady(d);
        if !ready && slot.client.None? {
          CreateClient(d);
        }
      } else {
        ResetClient(d);
      }
    }

    method SetupVirtualHidDevices()
      modifies this, dispatcher
      ensures View() == Setup(old(View()))
    {
      SetupOneDevice(Keyboard);
      SetupOneDevice(Pointing);
    }

    // ---------------------------------------------------------------- tasks

    method InitializeKeyboard(parameters: Parameters)
      modifies this, dispatcher
      ensures View() == EnableKeyboard(old(View()), parameters)
    {
      if keyboard.client.Some? && this.parameters != parameters {
        ResetClient(Keyboard);
      }
      keyboard := keyboard.(enabled := true);
      this.parameters := parameters;
      SetupVirtualHidDevices();
    }

    method InitializePointing()
      modifies this, dispatcher
      ensures View() == Setup(old(View()).(pointing := old(pointing).(enabled := true)))
    {
      pointing := pointing.(enabled := true);
      SetupVirtualHidDevices();
    }

    method TerminateDevice(d: Device)
      modifies this, dispatcher
      ensures View() == Terminate(old(View()), d)
    {
      var slot := GetSlot(d);
      SetSlot(d, slot.(enabled := false, generation := slot.generation + 1));
      ResetClient(d);
    }

    method Perform(request: Request)
      modifies this, dispatcher
      ensures View() == Reconfigure(old(View()), request)
    {
      match request {
        case KeyboardInitialize(parameters) => InitializeKeyboard(parameters);
        case KeyboardTerminate => TerminateDevice(Keyboard);
        case PointingInitialize => InitializePointing();
        case PointingTerminate => TerminateDevice(Pointing);
      }
    }

    /** The task enqueued by `initialize_keyboard`, `terminate_keyboard`, `initialize_pointing` or `terminate_pointing`. */
    method RunRequest(request: Request, activated: bool) returns (push: Option<Status>)
      modifies this, dispatcher
      ensures View() == ApplyRequest(old(View()), request, activated)
    {
      Perform(request);
      history := history.(applied := history.applied + [request]);
      push := CheckStatusChange(activated);
    }

    /** The delayed task of `create_virtual_hid_client`. */
    method RunCheck(timer: Timer)
      modifies this, dispatcher
      ensures View() == Check(old(View()), timer)
    {
      var slot := GetSlot(timer.device);
      if timer.generation != slot.generation {
        return;
      }
      var ready := IsDeviceReady(timer.device);
      if slot.enabled && !ready {
        ResetClient(timer.device);
        SetupVirtualHidDevices();
      }
    }
  }
}
