/** The API server as the operator sees it: a store of objects behind calls that may fail. */
module Kubernetes {
  import opened Wrappers
  import opened Sessions
  import opened Manifests

  datatype Kind = ServiceKind | StatefulSetKind | DeploymentKind | JobKind | SessionKind

  /** One namespace of one API server. */
  datatype Place = Place(server: string, namespace: string)

  datatype Key = Key(place: Place, kind: Kind, name: string)

  /** What other controllers report on an object. */
  datatype Progress = Progress(
    ready: nat, active: nat, succeeded: nat, failed: nat, started: Option<int>, completed: Option<int>)

  const NO_PROGRESS := Progress(0, 0, 0, 0, None, None)

  /** An object: which incarnation of its key it is, its generation, its content, its progress. */
  datatype Object = Object(uid: nat, generation: nat, manifest: Manifest, progress: Progress)

  /** A place for an object, with the number of objects ever created there. */
  datatype Slot = Slot(current: Option<Object>, created: nat)

  type World = map<Key, Slot>

  function At(w: World, k: Key): Slot {
    if k in w then w[k] else Slot(None, 0)
  }

  predicate Exists(w: World, k: Key) {
    At(w, k).current.Some?
  }

  /** Labels and annotations of a session are not part of its specification. */
  predicate SpecChanges(m: Manifest, m': Manifest) {
    if m.SessionManifest? && m'.SessionManifest? then m.session != m'.session else m != m'
  }

  /** Patching overwrites the content and keeps identity and progress; a changed specification is
      a new generation. Creating starts a new incarnation. */
  function AppliedSlot(s: Slot, m: Manifest): Slot {
    match s.current
    case Some(o) =>
      var generation := if SpecChanges(o.manifest, m) then o.generation + 1 else o.generation;
      s.(current := Some(o.(manifest := m, generation := generation)))
    case None => Slot(Some(Object(s.created, 1, m, NO_PROGRESS)), s.created + 1)
  }

  function DeletedSlot(s: Slot): Slot {
    s.(current := None)
  }

  function Applied(w: World, k: Key, m: Manifest): World {
    w[k := AppliedSlot(At(w, k), m)]
  }

  function Deleted(w: World, k: Key): World {
    w[k := DeletedSlot(At(w, k))]
  }

  predicate HasLabel(s: Slot, key: LabelKey, value: string) {
    && s.current.Some?
    && key in s.current.value.manifest.labels.session
    && s.current.value.manifest.labels.session[key] == value
  }

  /** A call may be refused, or take effect although its reply is lost. */
  datatype Fault = Refused | ReplyLost

  datatype ApiError = NotFound | Conflict | Unavailable

  /** The API server with the faults that lie ahead: None lets a call through. */
  class Api {
    var world: World
    var faults: seq<Option<Fault>>

    constructor (world: World, faults: seq<Option<Fault>>)
      ensures this.world == world && this.faults == faults
    {
      this.world, this.faults := world, faults;
    }

    /** No fault lies ahead. */
    predicate Calm()
      reads this
    {
      forall i :: 0 <= i < |faults| ==> faults[i] == None
    }

    method NextFault() returns (fault: Option<Fault>)
      modifies this`faults
      ensures old(Calm()) ==> Calm() && fault == None
    {
      if faults == [] {
        return None;
      }
      fault := faults[0];
      faults := faults[1..];
    }

    method Patch(k: Key, m: Manifest) returns (r: Result<(), ApiError>)
      modifies this
      ensures r.Success? ==> Exists(old(world), k) && world == Applied(old(world), k, m)
      ensures r == Failure(NotFound) ==> !Exists(old(world), k) && world == old(world)
      ensures r.Failure? && world != old(world) ==>
                Exists(old(world), k) && world == Applied(old(world), k, m)
      ensures old(Calm()) ==> Calm() && (r.Failure? ==> r.error == NotFound)
    {
      var fault := NextFault();
      if fault == Some(Refused) {
        return Failure(Unavailable);
      }
      if !Exists(world, k) {
        return Failure(if fault.None? then NotFound else Unavailable);
      }
      world := Applied(world, k, m);
      r := if fault.None? then Success(()) else Failure(Unavailable);
    }

    method Create(k: Key, m: Manifest) returns (r: Result<(), ApiError>)
      modifies this
      ensures r.Success? ==> !Exists(old(world), k) && world == Applied(old(world), k, m)
      ensures r == Failure(Conflict) ==> Exists(old(world), k) && world == old(world)
      ensures r.Failure? && world != old(world) ==> !Exists(old(world), k) && world == Applied(old(world), k, m)
      ensures r != Failure(NotFound)
      ensures old(Calm()) ==> Calm() && r == if Exists(old(world), k) then Failure(Conflict) else Success(())
    {
      var fault := NextFault();
      if fault == Some(Refused) {
        return Failure(Unavailable);
      }
      if Exists(world, k) {
        return Failure(if fault.None? then Conflict else Unavailable);
      }
      world := Applied(world, k, m);
      r := if fault.None? then Success(()) else Failure(Unavailable);
    }

    method Delete(k: Key) returns (r: Result<(), ApiError>)
      modifies this
      ensures r.Success? ==> Exists(old(world), k) && world == Deleted(old(world), k)
      ensures r == Failure(NotFound) ==> !Exists(old(world), k) && world == old(world)
      ensures r.Failure? && world != old(world) ==>
                Exists(old(world), k) && world == Deleted(old(world), k)
      ensures old(Calm()) ==> Calm() && (r.Failure? ==> r.error == NotFound)
    {
      var fault := NextFault();
      if fault == Some(Refused) {
        return Failure(Unavailable);
      }
      if !Exists(world, k) {
        return Failure(if fault.None? then NotFound else Unavailable);
      }
      world := Deleted(world, k);
      r := if fault.None? then Success(()) else Failure(Unavailable);
    }

    method Read(k: Key) returns (r: Result<Object, ApiError>)
      modifies this`faults
      ensures r.Success? ==> At(world, k).current == Some(r.value)
      ensures r == Failure(NotFound) ==> !Exists(world, k)
      ensures old(Calm()) ==> Calm() && (r.Failure? ==> r.error == NotFound)
    {
      var fault := NextFault();
      if fault.Some? {
        return Failure(Unavailable);
      }
      return match At(world, k).current case Some(o) => Success(o) case None => Failure(NotFound);
    }

    /** The names of the objects of a kind that carry a label, in no particular order. */
    method List(place: Place, kind: Kind, key: LabelKey, value: string) returns (r: Result<seq<string>, ApiError>)
      modifies this`faults
      ensures r.Success? ==> forall name :: name in r.value <==> HasLabel(At(world, Key(place, kind, name)), key, value)
      ensures r.Failure? ==> r.error == Unavailable
      ensures old(Calm()) ==> Calm() && r.Success?
    {
      var fault := NextFault();
      if fault.Some? {
        return Failure(Unavailable);
      }
      var pending := set k | k in world && k.place == place && k.kind == kind && HasLabel(world[k], key, value);
      ghost var all := pending;
      var names := [];
      while pending != {}
        invariant pending <= all
        invariant forall name :: name in names <==> Key(place, kind, name) in all - pending
      {
        var k :| k in pending;
        pending := pending - {k};
        names := names + [k.name];
      }
      return Success(names);
    }
  }

  // ----- Worlds on the way to a goal -----

  /** The second world is the first with one slot replaced. */
  ghost predicate Replaced(w: World, w': World, k: Key, s: Slot) {
    forall j :: At(w', j) == if j == k then s else At(w, j)
  }

  ghost predicate Same(w: World, w': World) {
    forall j :: At(w', j) == At(w, j)
  }

  /** Every slot is as in the goal. */
  ghost predicate Reached(w: World, goal: Key -> Slot) {
    forall k :: At(w, k) == goal(k)
  }

  /** Every slot is as it was or as in the goal. */
  ghost predicate Between(w0: World, w: World, goal: Key -> Slot) {
    forall k :: At(w, k) == At(w0, k) || At(w, k) == goal(k)
  }

  /** Exactly the given slots are as in the goal, the others as they were. */
  ghost predicate Partway(w0: World, w: World, goal: Key -> Slot, done: set<Key>) {
    forall k :: At(w, k) == if k in done then goal(k) else At(w0, k)
  }

  // ----- The helpers of the controller -----

  /** Patch, or create what is not there. The ghost arguments follow the caller to its goal:
      on success one more slot is as in the goal, on failure every slot is still as it was or
      as in the goal. */
  method Apply(api: Api, k: Key, m: Manifest, ghost w0: World, ghost goal: Key -> Slot, ghost done: set<Key>)
    returns (r: Result<(), ApiError>)
    requires Partway(w0, api.world, goal, done) && k !in done
    requires goal(k) == AppliedSlot(At(w0, k), m)
    modifies api
    ensures r.Success? ==> Partway(w0, api.world, goal, done + {k})
    ensures r.Failure? ==> Between(w0, api.world, goal)
    ensures old(api.Calm()) ==> api.Calm() && r.Success?
  {
    r := api.Patch(k, m);
    if r == Failure(NotFound) {
      r := api.Create(k, m);
    }
  }

  /** Delete, and be content with what is not there. */
  method DeleteIfExists(api: Api, k: Key, ghost w0: World, ghost goal: Key -> Slot, ghost done: set<Key>)
    returns (r: Result<(), ApiError>)
    requires Partway(w0, api.world, goal, done)
    requires goal(k) == DeletedSlot(At(w0, k))
    modifies api
    ensures r.Success? ==> Partway(w0, api.world, goal, done + {k})
    ensures r.Failure? ==> Between(w0, api.world, goal)
    ensures forall j | j != k :: At(api.world, j) == At(old(api.world), j)
    ensures old(api.Calm()) ==> api.Calm() && r.Success?
  {
    r := api.Delete(k);
    if r == Failure(NotFound) {
      r := Success(());
    }
  }
}
