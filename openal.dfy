/** The OpenAL facade of the extension: loading a WAVE buffer into a library
    buffer, the singleton that pairs every source it creates with the buffer
    that source plays, and the distance-model and source-state mappings.

    The native audio library is not modelled. The handles it generates and
    the error status it reports are parameters of the operations, and the
    deletions it is asked to perform are recorded in the ghost log
    `released`. */
module OpenALFacade {
  import opened Wave

  /** An ALuint name of a source or a buffer. The library never generates 0;
      loadWavFile and newSource return 0 on failure. */
  type Handle = nat

  /* ---------- loadWavFile ---------- */

  /** How loadWavFile ends: the buffer was filled with the parsed sound; the
      header was rejected before any buffer was generated; or the library
      reported an error after the upload into the generated buffer. */
  datatype LoadOutcome =
    | Loaded(buffer: Handle, wav: Wav)
    | Rejected(error: WavError)
    | UploadFailed(buffer: Handle)
  {
    /** The name loadWavFile returns: 0 on every failure. */
    function Name(): Handle {
      if Loaded? then buffer else 0
    }
  }

  /** loadWavFile, given the name alGenBuffers produces and whether
      alGetError reports an error after alBufferData. */
  function LoadWavFile(data: seq<byte>, generated: Handle, uploadError: bool): (r: LoadOutcome)
    ensures ParseWav(data).Err? <==> r.Rejected?
    ensures r.Rejected? ==> r.error == ParseWav(data).error && r.Name() == 0
    ensures ParseWav(data).Ok? && uploadError <==> r.UploadFailed?
    ensures r.UploadFailed? ==> r.buffer == generated && r.Name() == 0
    ensures r.Loaded? ==> r.buffer == generated && r.wav == ParseWav(data).value && !uploadError
  {
    match ParseWav(data)
    case Err(e) => Rejected(e)
    case Ok(wav) => if uploadError then UploadFailed(generated) else Loaded(generated, wav)
  }

  /* ---------- the library calls the facade makes ---------- */

  /** A deletion request sent to the library: alDeleteSources followed by
      alDeleteBuffers for one pair, or alDeleteBuffers alone for a buffer
      whose upload failed. */
  datatype Release =
    | SourceAndBuffer(source: Handle, buffer: Handle)
    | BufferOnly(buffer: Handle)

  /** k is the smallest name in ks. */
  predicate IsLeast(k: Handle, ks: set<Handle>) {
    k in ks && forall j :: j in ks ==> k <= j
  }

  lemma LeastIsUnique(a: Handle, b: Handle, ks: set<Handle>)
    requires IsLeast(a, ks) && IsLeast(b, ks)
    ensures a == b
  {
  }

  /** The smallest element of a non-empty set of names. */
  ghost function MinKey(ks: set<Handle>): (k: Handle)
    requires ks != {}
    ensures IsLeast(k, ks)
  {
    MinKeyExists(ks);
    var k :| IsLeast(k, ks);
    k
  }

  lemma MinKeyExists(ks: set<Handle>)
    requires ks != {}
    ensures exists k :: IsLeast(k, ks)
  {
    var x :| x in ks;
    if ks == {x} {
      assert IsLeast(x, ks);
    } else {
      MinKeyExists(ks - {x});
      var y :| IsLeast(y, ks - {x});
      var z := if x < y then x else y;
      forall j | j in ks ensures z <= j {
        if j != x { assert j in ks - {x}; }
      }
      assert IsLeast(z, ks);
    }
  }

  /** The releases close() requests: one pair per entry of the map, in the
      ascending key order of a std::map traversal. */
  ghost function CloseOrder(m: map<Handle, Handle>): seq<Release>
    decreases |m|
  {
    if |m| == 0 then []
    else
      assert m.Keys != {} by { assert |m.Keys| == |m|; }
      var k := MinKey(m.Keys);
      assert (m - {k}).Keys == m.Keys - {k};
      [SourceAndBuffer(k, m[k])] + CloseOrder(m - {k})
  }

  /** close() releases every recorded (source, buffer) pair exactly once:
      the list holds one release per entry, each release is a pair of the
      map, every pair of the map is in it, and its sources strictly ascend
      (so no source is released twice). */
  lemma CloseOrderReleasesEachPairOnce(m: map<Handle, Handle>)
    ensures |CloseOrder(m)| == |m|
    ensures forall i :: 0 <= i < |CloseOrder(m)| ==> IsEntry(CloseOrder(m)[i], m)
    ensures forall k :: k in m ==> SourceAndBuffer(k, m[k]) in CloseOrder(m)
    ensures forall i, j :: 0 <= i < j < |CloseOrder(m)| ==> Before(CloseOrder(m)[i], CloseOrder(m)[j])
  {
    CloseOrderSound(m);
    CloseOrderComplete(m);
  }

  /** r releases one (source, buffer) pair of m. */
  predicate IsEntry(r: Release, m: map<Handle, Handle>) {
    r.SourceAndBuffer? && r.source in m && m[r.source] == r.buffer
  }

  /** a releases a smaller source than b. */
  predicate Before(a: Release, b: Release) {
    a.SourceAndBuffer? && b.SourceAndBuffer? && a.source < b.source
  }

  /** The first release is the least key; the rest is the order of the rest. */
  lemma CloseOrderUnfold(m: map<Handle, Handle>)
    requires |m| != 0
    ensures m.Keys != {}
    ensures (m - {MinKey(m.Keys)}).Keys == m.Keys - {MinKey(m.Keys)}
    ensures CloseOrder(m)
      == [SourceAndBuffer(MinKey(m.Keys), m[MinKey(m.Keys)])] + CloseOrder(m - {MinKey(m.Keys)})
  {
    assert |m.Keys| == |m|;
  }

  /** One step of close(): releasing the least key moves its pair from the
      part still to visit to the part done. */
  lemma CloseStep(done: seq<Release>, rest: map<Handle, Handle>, k: Handle)
    requires IsLeast(k, rest.Keys)
    ensures |rest - {k}| < |rest|
    ensures k in rest
    ensures (done + [SourceAndBuffer(k, rest[k])]) + CloseOrder(rest - {k}) == done + CloseOrder(rest)
  {
    assert |rest| != 0 by { assert |rest.Keys| == |rest|; }
    CloseOrderUnfold(rest);
    LeastIsUnique(k, MinKey(rest.Keys), rest.Keys);
  }

  /** Length, soundness and ascending order, proved together by induction. */
  lemma {:induction false} CloseOrderSound(m: map<Handle, Handle>)
    ensures |CloseOrder(m)| == |m|
    ensures forall i :: 0 <= i < |CloseOrder(m)| ==> IsEntry(CloseOrder(m)[i], m)
    ensures forall i, j :: 0 <= i < j < |CloseOrder(m)| ==> Before(CloseOrder(m)[i], CloseOrder(m)[j])
    decreases |m|
  {
    if |m| != 0 {
      CloseOrderUnfold(m);
      var k := MinKey(m.Keys);
      var rest := m - {k};
      CloseOrderSound(rest);
      var order, tail := CloseOrder(m), CloseOrder(rest);
      forall i | 0 < i < |order|
        ensures order[i] == tail[i - 1] && IsEntry(order[i], m) && k < order[i].source
      {
        assert IsEntry(tail[i - 1], rest);
      }
      assert IsEntry(order[0], m);
      forall i, j | 0 <= i < j < |order|
        ensures Before(order[i], order[j])
      {
        if i > 0 {
          assert order[i] == tail[i - 1] && order[j] == tail[j - 1];
        }
      }
    }
  }

  lemma {:induction false} CloseOrderComplete(m: map<Handle, Handle>)
    ensures forall k :: k in m ==> SourceAndBuffer(k, m[k]) in CloseOrder(m)
    decreases |m|
  {
    if |m| != 0 {
      CloseOrderUnfold(m);
      var k := MinKey(m.Keys);
      var rest := m - {k};
      CloseOrderComplete(rest);
      forall x | x in m ensures SourceAndBuffer(x, m[x]) in CloseOrder(m) {
        if x != k {
          assert x in rest && SourceAndBuffer(x, rest[x]) in CloseOrder(rest);
        }
      }
    }
  }

  /* ---------- the singleton ---------- */

  class OpenAL {
    /** The source -> buffer table (std::map<ALuint, ALuint> buffers). */
    var buffers: map<Handle, Handle>
    /** Every deletion requested from the library so far, oldest first. */
    ghost var released: seq<Release>
    /** The sources given the default position, velocity and reference distance. */
    ghost var initialised: set<Handle>

    constructor ()
      ensures buffers == map[] && released == [] && initialised == {}
    {
      buffers := map[];
      released := [];
      initialised := {};
    }

    /** newSource: load the WAVE bytes into a buffer, create a source playing
        it and record the pair. The library supplies the generated buffer
        and source names, the error status after the upload and after
        attaching the buffer, and whether the failed buffer is still a buffer. */
    method NewSource(data: seq<byte>, genBuffer: Handle, uploadError: bool,
                     bufferIsLive: bool, genSource: Handle, attachError: bool)
      returns (source: Handle)
      modifies this
      ensures var loaded := LoadWavFile(data, genBuffer, uploadError);
        && (loaded.Name() == 0 ==> source == 0 && buffers == old(buffers)
                                   && initialised == old(initialised))
        && (loaded.Name() != 0 ==>
              && source == genSource
              && buffers == old(buffers)[genSource := genBuffer]
              && initialised == old(initialised) + (if attachError then {} else {genSource}))
        && released == old(released)
             + (if loaded.UploadFailed? && bufferIsLive then [BufferOnly(genBuffer)] else [])
    {
      var loaded := LoadWavFile(data, genBuffer, uploadError);
      if loaded.UploadFailed? && bufferIsLive {
        released := released + [BufferOnly(loaded.buffer)];
      }
      var buffer := loaded.Name();
      if buffer == 0 {
        return 0;
      }
      source := genSource;
      buffers := buffers[source := buffer];
      if !attachError {
        initialised := initialised + {source};
      }
    }

    /** removeSource: release the source with its buffer and forget the pair.
        For a source that was never recorded, std::map's operator[] yields
        buffer 0 (inserting it, which the erase then undoes). */
    method RemoveSource(source: Handle)
      modifies this
      ensures buffers == old(buffers) - {source}
      ensures source !in buffers
      ensures forall k :: k in old(buffers) && k != source ==> k in buffers && buffers[k] == old(buffers)[k]
      ensures released == old(released)
        + [SourceAndBuffer(source, if source in old(buffers) then old(buffers)[source] else 0)]
      ensures initialised == old(initialised)
    {
      var buffer := if source in buffers then buffers[source] else 0;
      released := released + [SourceAndBuffer(source, buffer)];
      buffers := buffers - {source};
    }

    /** close: walk the table in key order releasing each pair, then clear it. */
    method Close()
      modifies this
      ensures buffers == map[]
      ensures released == old(released) + CloseOrder(old(buffers))
      ensures initialised == old(initialised)
    {
      var rest := buffers;
      while |rest| != 0
        invariant released + CloseOrder(rest) == old(released) + CloseOrder(old(buffers))
        invariant buffers == old(buffers) && initialised == old(initialised)
        decreases |rest|
      {
        MinKeyExists(rest.Keys);
        var k :| IsLeast(k, rest.Keys);
        CloseStep(released, rest, k);
        released := released + [SourceAndBuffer(k, rest[k])];
        rest := rest - {k};
      }
      assert CloseOrder(rest) == [];
      buffers := map[];
    }
  }

  /** The static OpenAL::instance pointer. */
  class InstanceSlot {
    var instance: OpenAL?

    constructor ()
      ensures instance == null
    {
      instance := null;
    }

    /** getInstance: create the facade on first use, then always return it. */
    method GetInstance() returns (o: OpenAL)
      modifies this
      ensures old(instance) != null ==> o == old(instance)
      ensures old(instance) == null ==> fresh(o) && o.buffers == map[] && o.released == [] && o.initialised == {}
      ensures instance == o
    {
      if instance == null {
        instance := new OpenAL();
      }
      o := instance;
    }
  }

  /* ---------- setDistanceModel ---------- */

  /** The seven distance models of the library. */
  datatype DistanceModel =
    | InverseDistance | InverseDistanceClamped
    | LinearDistance | LinearDistanceClamped
    | ExponentDistance | ExponentDistanceClamped
    | NoDistanceModel
  {
    /** The AL enum passed to alDistanceModel. */
    function Code(): int {
      match this
      case InverseDistance => 0xD001
      case InverseDistanceClamped => 0xD002
      case LinearDistance => 0xD003
      case LinearDistanceClamped => 0xD004
      case ExponentDistance => 0xD005
      case ExponentDistanceClamped => 0xD006
      case NoDistanceModel => 0
    }

    /** The name a script uses for this model. */
    function Name(): string {
      match this
      case InverseDistance => "inverse"
      case InverseDistanceClamped => "inverse clamped"
      case LinearDistance => "linear"
      case LinearDistanceClamped => "linear clamped"
      case ExponentDistance => "exponent"
      case ExponentDistanceClamped => "exponent clamped"
      case NoDistanceModel => "none"
    }
  }

  datatype Option<T> = None | Some(value: T)

  /** The model a name selects, if any. */
  function ModelNamed(name: string): (r: Option<DistanceModel>)
    ensures r.Some? ==> r.value.Name() == name
    ensures (exists m: DistanceModel :: m.Name() == name) ==> r.Some?
  {
    match name
    case "inverse" => Some(InverseDistance)
    case "inverse clamped" => Some(InverseDistanceClamped)
    case "linear" => Some(LinearDistance)
    case "linear clamped" => Some(LinearDistanceClamped)
    case "exponent" => Some(ExponentDistance)
    case "exponent clamped" => Some(ExponentDistanceClamped)
    case "none" => Some(NoDistanceModel)
    case _ => None
  }

  /** setDistanceModel, as the library's distance model after the call. */
  function SetDistanceModel(current: DistanceModel, name: string): (r: DistanceModel)
    ensures ModelNamed(name).None? ==> r == current
    ensures ModelNamed(name).Some? ==> r.Name() == name
  {
    match ModelNamed(name)
    case Some(m) => m
    case None => current
  }

  /** Each of the seven models is selected by its own name; another name yields
      it only when it is already the current model. */
  lemma SetDistanceModelByName(current: DistanceModel, m: DistanceModel, name: string)
    ensures SetDistanceModel(current, m.Name()) == m
    ensures name != m.Name() && SetDistanceModel(current, name) == m ==> m == current
  {
  }

  /** The seven models are distinct: distinct names and distinct AL enums. */
  lemma DistanceModelsDistinct(a: DistanceModel, b: DistanceModel)
    ensures a != b ==> a.Name() != b.Name() && a.Code() != b.Code()
  {
  }

  /* ---------- getSourceState ---------- */

  /** AL_INITIAL, AL_PLAYING, AL_PAUSED and AL_STOPPED. */
  const AL_INITIAL: int := 0x1011
  const AL_PLAYING: int := 0x1012
  const AL_PAUSED: int := 0x1013
  const AL_STOPPED: int := 0x1014

  /** getSourceState, given the AL_SOURCE_STATE value the library reports
      (0 when the query leaves it untouched). */
  function SourceStateName(state: int): (r: string)
    ensures r == "" <==> state !in {AL_INITIAL, AL_PLAYING, AL_PAUSED, AL_STOPPED}
    ensures r != "" ==> StateNamed(r) == Some(state)
  {
    if state == AL_INITIAL then "initial"
    else if state == AL_PLAYING then "playing"
    else if state == AL_PAUSED then "paused"
    else if state == AL_STOPPED then "stopped"
    else ""
  }

  /** The inverse reading: the state a name stands for. */
  function StateNamed(name: string): Option<int> {
    match name
    case "initial" => Some(AL_INITIAL)
    case "playing" => Some(AL_PLAYING)
    case "paused" => Some(AL_PAUSED)
    case "stopped" => Some(AL_STOPPED)
    case _ => None
  }
}
