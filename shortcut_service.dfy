/**
 The shortcut service object: a listening flag guarded by `Init` and
 `Destroy`, the arrow-key navigator, and the keydown handler that `Init`
 registers on the window.
 */
module Shortcuts {
  import opened Wrappers
  import opened Commands
  import opened Layers
  import opened KeyRouter
  import opened Navigator

  class ShortcutService {
    var isInit: bool
    /** Keydown handlers this service has registered on the window. */
    ghost var keydownHandlers: nat

    /** Listening means exactly one registered handler. */
    ghost predicate Valid()
      reads this
    {
      keydownHandlers == if isInit then 1 else 0
    }

    constructor ()
      ensures Valid() && !isInit && keydownHandlers == 0
    {
      isInit := false;
      keydownHandlers := 0;
    }

    /** Starts listening; a second call while listening changes nothing. */
    method Init()
      requires Valid()
      modifies this
      ensures Valid() && isInit
      ensures keydownHandlers == old(keydownHandlers) + (if old(isInit) then 0 else 1)
      ensures old(isInit) ==> unchanged(this)
    {
      if isInit {
        return;
      }
      isInit := true;
      keydownHandlers := keydownHandlers + 1;
    }

    /** Stops listening and unbinds the keydown handlers; a no-op when not listening. */
    method Destroy()
      requires Valid()
      modifies this
      ensures Valid() && !isInit && keydownHandlers == 0
      ensures !old(isInit) ==> unchanged(this)
    {
      if !isInit {
        return;
      }
      isInit := false;
      keydownHandlers := 0;
    }

    /**
     Handles an arrow key against a snapshot of the vector layer and the
     selected layer ids; returns the store action dispatched, if any.
     */
    method OnArrow(vl: Layer, selectedLayerIds: set<string>, shiftKey: bool, direction: Direction)
      returns (dispatched: Option<Command>)
      ensures dispatched == Navigate(Flatten(vl), selectedLayerIds, direction, shiftKey)
    {
      if |selectedLayerIds| == 0 {
        return None;
      }
      var layerIds := CollectIds(vl);
      var index := FindIndex(layerIds, selectedLayerIds);
      var clearExisting := !shiftKey;
      dispatched := None;
      if direction == Up {
        if index > 0 {
          dispatched := Some(SelectLayer(layerIds[index - 1], clearExisting));
        }
      } else {
        if index + 1 < |layerIds| - 1 {
          dispatched := Some(SelectLayer(layerIds[index + 1], clearExisting));
        }
      }
    }

    /**
     The registered keydown handler: the commands sent to collaborators and
     the value returned. It runs only while the service is listening, that is
     while its one handler is registered. Arrow keys run the navigator on the
     given snapshot.
     */
    method KeyDown(ev: KeyEvent, isMac: bool, inputFocused: bool, modes: ActionModes,
                   vl: Layer, selectedLayerIds: set<string>)
      returns (effects: seq<Command>, ret: Ret)
      requires Valid() && isInit
      ensures ret == Resolve(ev, isMac, inputFocused, modes).ret
      ensures |effects| <= 1
      ensures |effects| == 1 ==> SuppressesDefault(ret) && !effects[0].ArrowNavigation?
      ensures match Resolve(ev, isMac, inputFocused, modes).command
        case None => effects == []
        case Some(ArrowNavigation(d, s)) => effects == ToSeq(Navigate(Flatten(vl), selectedLayerIds, d, s))
        case Some(c) => effects == [c]
    {
      var outcome := Resolve(ev, isMac, inputFocused, modes);
      ret := outcome.ret;
      match outcome.command {
        case None =>
          effects := [];
        case Some(c) =>
          if c.ArrowNavigation? {
            var selection := OnArrow(vl, selectedLayerIds, c.shiftKey, c.direction);
            effects := ToSeq(selection);
          } else {
            effects := [c];
          }
      }
    }
  }

  /** Two `Init` calls register one handler; two `Destroy` calls leave the service stopped. */
  method InitAndDestroyTwice() returns (listeningAfterInits: bool, listeningAfterDestroys: bool)
    ensures listeningAfterInits && !listeningAfterDestroys
  {
    var service := new ShortcutService();
    service.Init();
    service.Init();
    assert service.keydownHandlers == 1;
    listeningAfterInits := service.isInit;
    service.Destroy();
    service.Destroy();
    assert service.keydownHandlers == 0;
    listeningAfterDestroys := service.isInit;
  }
}
