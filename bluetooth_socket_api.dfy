/**
 * The chrome.bluetoothSocket extension API functions. Each call resolves a
 * socket by (extension id, socket id) in the socket registry, checks its input
 * in a fixed order, then changes the socket record, or starts one adapter
 * request whose callback later finishes the call.
 *
 * A call's own state is its `Reply`: the error and results it will answer with,
 * and how many times it has sent its response. Calls that wait for the adapter
 * are split into the part before the request and one function per callback.
 * The adapter, the device lookup, the UUID check and the manifest permission
 * checks are inputs.
 */
module BluetoothSocketApi {
  import opened Wrappers

  const DeviceNotFoundError := "Device not found"
  const InvalidUuidError := "Invalid UUID"
  const PermissionDeniedError := "Permission denied"
  const SocketNotFoundError := "Socket not found"

  /** The registry key: a socket is visible only to the extension that owns it. */
  datatype SocketKey = SocketKey(owner: string, id: int)

  /** What the registry knows about one socket. */
  datatype SocketRecord = SocketRecord(
    name: string,
    persistent: bool,
    bufferSize: int,
    paused: bool,
    connected: bool,
    deviceAddress: string,
    uuid: string)

  /** A socket as first created: unnamed, not persistent, no buffer size, not paused and not connected. */
  const NewSocket := SocketRecord("", false, 0, false, false, "", "")

  /** The optional properties of create and update. */
  datatype SocketProperties = SocketProperties(name: Option<string>, persistent: Option<bool>, bufferSize: Option<int>)

  /** The socket description returned by getInfo and getSockets. */
  datatype SocketInfo = SocketInfo(
    socketId: int,
    name: Option<string>,
    persistent: bool,
    bufferSize: Option<int>,
    paused: bool,
    connected: bool,
    address: Option<string>,
    uuid: string)

  datatype SocketEvent = OnSocketResume(key: SocketKey) | OnSocketListen(key: SocketKey) | OnSocketConnect(key: SocketKey)

  /** A listening channel or PSM: the adapter's automatic choice, or a fixed one. */
  datatype Port = Auto | Fixed(n: int)

  /** The requests made of the adapter, the device or the device socket. */
  datatype DeviceCall =
    | CreateRfcommService(uuid: string, channel: Port)
    | CreateL2capService(uuid: string, psm: Port)
    | ConnectToService(address: string, uuid: string)
    | SendData(socket: SocketKey, size: nat)
    | DisconnectSocket(socket: SocketKey)

  datatype ListenOptions = ListenOptions(channel: Option<int>, psm: Option<int>)
  datatype Protocol = Rfcomm | L2cap

  datatype Results = NoResults | Created(socketId: int) | Done | Info(info: SocketInfo) | Infos(infos: seq<SocketInfo>) | BytesSent(bytes: int)

  /**
   * A call's answer: whether it got past PrePrepare, its error (empty for
   * success), its results, and how many times it has sent its response.
   */
  datatype Reply = Reply(runAsync: bool, error: string, results: Results, completions: nat)

  /** The registry, the next resource id, the events dispatched and the requests made so far. */
  datatype ApiState = ApiState(
    sockets: map<SocketKey, SocketRecord>,
    nextId: int,
    events: seq<SocketEvent>,
    deviceCalls: seq<DeviceCall>)

  /** Every registered id was handed out before `nextId`. */
  predicate Valid(s: ApiState) {
    s.nextId >= 1 && forall k :: k in s.sockets ==> 1 <= k.id < s.nextId
  }

  const EmptyApi := ApiState(map[], 1, [], [])

  // ---------------------------------------------------------------------------
  // Calls and their answers

  /** A call that passed PrePrepare and has not answered yet. */
  const Started := Reply(true, "", NoResults, 0)

  /** PrePrepare: a call from an extension the manifest does not permit sockets fails before any work. */
  const Refused := Reply(false, PermissionDeniedError, NoResults, 0)

  /** AsyncWorkCompleted: sends the response once more; it succeeds when no error was set. */
  function Complete(r: Reply): (c: Reply)
    ensures c.completions == r.completions + 1
  {
    r.(completions := r.completions + 1)
  }

  function Fail(r: Reply, message: string): Reply {
    Complete(r.(error := message))
  }

  function Succeed(r: Reply, results: Results): Reply {
    Complete(r.(results := results))
  }

  /** RunAsync: the work runs only when the extension may use sockets. */
  function Gate(socketPermitted: bool, s: ApiState, work: (ApiState, Reply)): (ApiState, Reply) {
    if socketPermitted then work else (s, Refused)
  }

  // ---------------------------------------------------------------------------
  // Socket records

  function SetSocketProperties(rec: SocketRecord, props: SocketProperties): SocketRecord {
    rec.(name := props.name.GetOr(rec.name),
         persistent := props.persistent.GetOr(rec.persistent),
         bufferSize := props.bufferSize.GetOr(rec.bufferSize))
  }

  /** Later properties win over earlier ones; fields both leave absent stay. */
  function Overlay(first: SocketProperties, second: SocketProperties): SocketProperties {
    SocketProperties(
      if second.name.Some? then second.name else first.name,
      if second.persistent.Some? then second.persistent else first.persistent,
      if second.bufferSize.Some? then second.bufferSize else first.bufferSize)
  }

  /**
   * Setting properties writes exactly the fields present (a buffer size is
   * taken as given, negative or not) and keeps the others, so it is idempotent,
   * the empty set changes nothing, and two settings compose into one.
   */
  lemma SetSocketPropertiesLaws(rec: SocketRecord, p: SocketProperties, q: SocketProperties)
    ensures var r := SetSocketProperties(rec, p);
      && (p.name.Some? ==> r.name == p.name.value) && (p.name.None? ==> r.name == rec.name)
      && (p.persistent.Some? ==> r.persistent == p.persistent.value) && (p.persistent.None? ==> r.persistent == rec.persistent)
      && (p.bufferSize.Some? ==> r.bufferSize == p.bufferSize.value) && (p.bufferSize.None? ==> r.bufferSize == rec.bufferSize)
      && r.(name := rec.name, persistent := rec.persistent, bufferSize := rec.bufferSize) == rec
    ensures SetSocketProperties(SetSocketProperties(rec, p), p) == SetSocketProperties(rec, p)
    ensures SetSocketProperties(rec, SocketProperties(None, None, None)) == rec
    ensures SetSocketProperties(SetSocketProperties(rec, p), q) == SetSocketProperties(rec, Overlay(p, q))
  {
  }

  function CreateSocketInfo(socketId: int, rec: SocketRecord): SocketInfo {
    SocketInfo(
      socketId,
      if rec.name != "" then Some(rec.name) else None,
      rec.persistent,
      if rec.bufferSize > 0 then Some(rec.bufferSize) else None,
      rec.paused,
      rec.connected,
      if rec.connected then Some(rec.deviceAddress) else None,
      rec.uuid)
  }

  /**
   * The info reports the name only when it is non-empty, the buffer size only
   * when positive and the address only when connected; persistent, paused,
   * connected and the UUID always; and whatever it reports is the record's.
   */
  lemma SocketInfoFields(socketId: int, rec: SocketRecord)
    ensures var info := CreateSocketInfo(socketId, rec);
      && info.socketId == socketId
      && (info.name.Some? <==> rec.name != "") && (info.name.Some? ==> info.name.value == rec.name)
      && (info.bufferSize.Some? <==> rec.bufferSize > 0) && (info.bufferSize.Some? ==> info.bufferSize.value == rec.bufferSize)
      && (info.address.Some? <==> rec.connected) && (info.address.Some? ==> info.address.value == rec.deviceAddress)
      && info.persistent == rec.persistent && info.paused == rec.paused
      && info.connected == rec.connected && info.uuid == rec.uuid
  {
  }

  // ---------------------------------------------------------------------------
  // The calls that finish in one step

  /** create, as written: Work answers, and AsyncWorkStart answers again after it. */
  function CreateWorkAsWritten(s: ApiState, owner: string, props: Option<SocketProperties>): (ApiState, Reply) {
    var rec := if props.Some? then SetSocketProperties(NewSocket, props.value) else NewSocket;
    var key := SocketKey(owner, s.nextId);
    (s.(sockets := s.sockets[key := rec], nextId := s.nextId + 1),
     Complete(Succeed(Started, Created(s.nextId))))
  }

  /** create: registers a new socket with the given properties under a fresh id and answers with that id once. */
  function CreateWork(s: ApiState, owner: string, props: Option<SocketProperties>): (ApiState, Reply) {
    var rec := if props.Some? then SetSocketProperties(NewSocket, props.value) else NewSocket;
    var key := SocketKey(owner, s.nextId);
    (s.(sockets := s.sockets[key := rec], nextId := s.nextId + 1),
     Succeed(Started, Created(s.nextId)))
  }

  /** The response to create is sent twice as written; the registry change is the same either way. */
  lemma CreateRespondsTwice(s: ApiState, owner: string, props: Option<SocketProperties>)
    ensures CreateWorkAsWritten(s, owner, props).1.completions == 2
    ensures CreateWorkAsWritten(s, owner, props).0 == CreateWork(s, owner, props).0
  {
  }

  /**
   * Create answers once, with an id no socket had; the new socket belongs to
   * the caller, carries the requested properties, and nothing else changes.
   */
  lemma CreateRespondsOnceWithFreshId(s: ApiState, owner: string, props: Option<SocketProperties>)
    requires Valid(s)
    ensures var (t, r) := CreateWork(s, owner, props);
      && r.completions == 1 && r.error == "" && r.results.Created?
      && Valid(t)
      && (forall k :: k in s.sockets ==> k.id != r.results.socketId)
      && SocketKey(owner, r.results.socketId) in t.sockets
      && t.sockets[SocketKey(owner, r.results.socketId)]
         == (if props.Some? then SetSocketProperties(NewSocket, props.value) else NewSocket)
      && (forall k :: k in s.sockets ==> k in t.sockets && t.sockets[k] == s.sockets[k])
      && |t.sockets| == |s.sockets| + 1
  {
    var key := SocketKey(owner, s.nextId);
    assert key !in s.sockets;
  }

  /**
   * getInfo on a freshly created socket reports the requested name (when
   * non-empty) and persistence, and a socket that is neither paused nor
   * connected; unpausing it is a no-op that fires no event.
   */
  lemma CreateThenGetInfo(s: ApiState, owner: string, props: Option<SocketProperties>)
    requires Valid(s)
    ensures var (t, r) := CreateWork(s, owner, props);
      && r.results.Created?
      && var reply := GetInfoWork(t, owner, r.results.socketId);
      && reply.error == "" && reply.completions == 1 && reply.results.Info?
      && var info := reply.results.info;
      && info.socketId == r.results.socketId
      && info.name == (if props.Some? && props.value.name.Some? && props.value.name.value != "" then props.value.name else None)
      && info.persistent == (props.Some? && props.value.persistent == Some(true))
      && !info.paused && !info.connected && info.address.None?
      && SetPausedWork(t, owner, r.results.socketId, false) == (t, Reply(true, "", Done, 1))
  {
  }

  /** The worked example of create then getInfo: name "n", persistent, not paused, not connected. */
  lemma CreateNamedPersistentThenGetInfo(s: ApiState, owner: string)
    requires Valid(s)
    ensures var (t, r) := CreateWork(s, owner, Some(SocketProperties(Some("n"), Some(true), None)));
      GetInfoWork(t, owner, s.nextId).results
        == Info(SocketInfo(s.nextId, Some("n"), true, None, false, false, None, ""))
  {
    CreateThenGetInfo(s, owner, Some(SocketProperties(Some("n"), Some(true), None)));
  }

  /** update: sets the properties present on the caller's socket. */
  function UpdateWork(s: ApiState, owner: string, socketId: int, props: SocketProperties): (ApiState, Reply) {
    var key := SocketKey(owner, socketId);
    if key !in s.sockets then (s, Fail(Started, SocketNotFoundError))
    else (s.(sockets := s.sockets[key := SetSocketProperties(s.sockets[key], props)]), Succeed(Started, Done))
  }

  /** setPaused: changes the flag only when it differs; unpausing a paused socket fires the resume event. */
  function SetPausedWork(s: ApiState, owner: string, socketId: int, paused: bool): (ApiState, Reply) {
    var key := SocketKey(owner, socketId);
    if key !in s.sockets then (s, Fail(Started, SocketNotFoundError))
    else if s.sockets[key].paused == paused then (s, Succeed(Started, Done))
    else
      var t := s.(sockets := s.sockets[key := s.sockets[key].(paused := paused)]);
      (if paused then t else t.(events := t.events + [OnSocketResume(key)]), Succeed(Started, Done))
  }

  /** close: removes the caller's socket from the registry; the device socket is not disconnected. */
  function CloseWork(s: ApiState, owner: string, socketId: int): (ApiState, Reply) {
    var key := SocketKey(owner, socketId);
    if key !in s.sockets then (s, Fail(Started, SocketNotFoundError))
    else (s.(sockets := s.sockets - {key}), Succeed(Started, Done))
  }

  /** getInfo: the caller's socket described. */
  function GetInfoWork(s: ApiState, owner: string, socketId: int): Reply {
    var key := SocketKey(owner, socketId);
    if key !in s.sockets then Fail(Started, SocketNotFoundError)
    else Succeed(Started, Info(CreateSocketInfo(socketId, s.sockets[key])))
  }

  /** The info list names each of the owner's sockets exactly once, each described by its record. */
  predicate ListsOwnerSockets(s: ApiState, owner: string, infos: seq<SocketInfo>) {
    && (forall i :: 0 <= i < |infos| ==>
          SocketKey(owner, infos[i].socketId) in s.sockets
          && infos[i] == CreateSocketInfo(infos[i].socketId, s.sockets[SocketKey(owner, infos[i].socketId)]))
    && (forall k :: k in s.sockets && k.owner == owner ==> exists i :: 0 <= i < |infos| && infos[i].socketId == k.id)
    && (forall i, j :: 0 <= i < j < |infos| ==> infos[i].socketId != infos[j].socketId)
  }

  /**
   * On an id its owner cannot resolve (closed, never created, or another
   * extension's), update, setPaused, close, disconnect and getInfo answer once with
   * "Socket not found" and change nothing.
   */
  lemma MissingSocketChangesNothing(s: ApiState, owner: string, socketId: int, props: SocketProperties, paused: bool)
    requires SocketKey(owner, socketId) !in s.sockets
    ensures UpdateWork(s, owner, socketId, props) == (s, Reply(true, SocketNotFoundError, NoResults, 1))
    ensures SetPausedWork(s, owner, socketId, paused) == (s, Reply(true, SocketNotFoundError, NoResults, 1))
    ensures CloseWork(s, owner, socketId) == (s, Reply(true, SocketNotFoundError, NoResults, 1))
    ensures GetInfoWork(s, owner, socketId) == Reply(true, SocketNotFoundError, NoResults, 1)
    ensures DisconnectStart(s, owner, socketId) == (s, Reply(true, SocketNotFoundError, NoResults, 1))
  {
  }

  /** setPaused changes the record only when the flag differs, and fires an event exactly on paused to unpaused. */
  lemma SetPausedTransitions(s: ApiState, owner: string, socketId: int, paused: bool)
    requires SocketKey(owner, socketId) in s.sockets
    ensures var key := SocketKey(owner, socketId);
      var (t, r) := SetPausedWork(s, owner, socketId, paused);
      && r == Reply(true, "", Done, 1)
      && key in t.sockets && t.sockets[key].paused == paused
      && (t.sockets == s.sockets <==> s.sockets[key].paused == paused)
      && (t.events == s.events + [OnSocketResume(key)] <==> s.sockets[key].paused && !paused)
      && (t.events == s.events <==> !(s.sockets[key].paused && !paused))
  {
    var key := SocketKey(owner, socketId);
    if s.sockets[key].paused != paused {
      var t := SetPausedWork(s, owner, socketId, paused).0;
      assert t.sockets[key] != s.sockets[key];
      if !paused {
        assert |t.events| == |s.events| + 1;
      }
    }
  }

  /** After a close, the owner can no longer resolve the id, so a second close fails. */
  lemma CloseThenCloseFails(s: ApiState, owner: string, socketId: int)
    requires SocketKey(owner, socketId) in s.sockets
    ensures var (t, r) := CloseWork(s, owner, socketId);
      && r == Reply(true, "", Done, 1)
      && SocketKey(owner, socketId) !in t.sockets
      && GetInfoWork(t, owner, socketId).error == SocketNotFoundError
      && CloseWork(t, owner, socketId).1.error == SocketNotFoundError
      && (forall k :: k != SocketKey(owner, socketId) ==> (k in t.sockets <==> k in s.sockets))
  {
  }

  /** A call by one extension never touches another extension's sockets. */
  lemma OwnerIsolation(s: ApiState, owner: string, socketId: int, props: SocketProperties, paused: bool, k: SocketKey)
    requires k.owner != owner
    ensures k in UpdateWork(s, owner, socketId, props).0.sockets <==> k in s.sockets
    ensures k in SetPausedWork(s, owner, socketId, paused).0.sockets <==> k in s.sockets
    ensures k in CloseWork(s, owner, socketId).0.sockets <==> k in s.sockets
    ensures k in s.sockets ==>
      && UpdateWork(s, owner, socketId, props).0.sockets[k] == s.sockets[k]
      && SetPausedWork(s, owner, socketId, paused).0.sockets[k] == s.sockets[k]
      && CloseWork(s, owner, socketId).0.sockets[k] == s.sockets[k]
  {
  }

  // ---------------------------------------------------------------------------
  // listenUsingRfcomm / listenUsingL2cap

  function RequestedPort(options: Option<ListenOptions>, protocol: Protocol): Port {
    var requested := if options.None? then None
      else if protocol == Rfcomm then options.value.channel else options.value.psm;
    if requested.Some? then Fixed(requested.value) else Auto
  }

  function ServiceRequest(protocol: Protocol, uuid: string, port: Port): DeviceCall {
    if protocol == Rfcomm then CreateRfcommService(uuid, port) else CreateL2capService(uuid, port)
  }

  /**
   * OnGetAdapter for listen: the socket must resolve, the UUID be valid and the
   * manifest permit it, checked in that order; then the service is requested
   * and the call waits for its callback.
   */
  function ListenOnGetAdapter(s: ApiState, owner: string, socketId: int, protocol: Protocol, uuid: string,
                              options: Option<ListenOptions>, uuidValid: bool, uuidPermitted: bool): (ApiState, Reply)
  {
    if SocketKey(owner, socketId) !in s.sockets then (s, Fail(Started, SocketNotFoundError))
    else if !uuidValid then (s, Fail(Started, InvalidUuidError))
    else if !uuidPermitted then (s, Fail(Started, PermissionDeniedError))
    else (s.(deviceCalls := s.deviceCalls + [ServiceRequest(protocol, uuid, RequestedPort(options, protocol))]), Started)
  }

  /** AdoptListeningSocket: the record now stands for a listening socket on `uuid`. */
  function AdoptListening(rec: SocketRecord, uuid: string): SocketRecord {
    rec.(uuid := uuid, connected := false)
  }

  /** OnCreateService: looks the socket up again; when it is still there, adopts the service and fires the listen event. */
  function ListenOnCreateService(s: ApiState, owner: string, socketId: int, uuid: string, r: Reply): (ApiState, Reply) {
    var key := SocketKey(owner, socketId);
    if key !in s.sockets then (s, Fail(r, SocketNotFoundError))
    else (s.(sockets := s.sockets[key := AdoptListening(s.sockets[key], uuid)], events := s.events + [OnSocketListen(key)]),
          Succeed(r, Done))
  }

  function ListenOnCreateServiceError(r: Reply, message: string): Reply {
    Fail(r, message)
  }

  /** The error of the first failing check, in the order they are made. */
  function FirstFailure(checks: seq<(bool, string)>): (e: Option<string>)
    ensures e.None? <==> forall i :: 0 <= i < |checks| ==> checks[i].0
    ensures e.Some? ==>
      exists i :: 0 <= i < |checks| && !checks[i].0 && e.value == checks[i].1 && forall j :: 0 <= j < i ==> checks[j].0
  {
    if checks == [] then None
    else if !checks[0].0 then Some(checks[0].1)
    else
      var rest := FirstFailure(checks[1..]);
      if rest.Some? then
        var i :| 0 <= i < |checks[1..]| && !checks[1..][i].0 && rest.value == checks[1..][i].1
          && forall j :: 0 <= j < i ==> checks[1..][j].0;
        assert !checks[i + 1].0 && forall j :: 0 <= j < i + 1 ==> checks[j].0;
        rest
      else rest
  }

  /**
   * Listen reaches the adapter exactly when all three checks pass; otherwise
   * it answers once with the first failing check's error and changes nothing.
   */
  lemma ListenCheckOrder(s: ApiState, owner: string, socketId: int, protocol: Protocol, uuid: string,
                         options: Option<ListenOptions>, uuidValid: bool, uuidPermitted: bool)
    ensures var (t, r) := ListenOnGetAdapter(s, owner, socketId, protocol, uuid, options, uuidValid, uuidPermitted);
      var failure := FirstFailure([(SocketKey(owner, socketId) in s.sockets, SocketNotFoundError),
                                   (uuidValid, InvalidUuidError),
                                   (uuidPermitted, PermissionDeniedError)]);
      && (failure.None? ==> t.deviceCalls == s.deviceCalls + [ServiceRequest(protocol, uuid, RequestedPort(options, protocol))]
                            && r == Started)
      && (failure.Some? ==> t == s && r == Reply(true, failure.value, NoResults, 1))
      && t.sockets == s.sockets && t.events == s.events
  {
    var checks := [(SocketKey(owner, socketId) in s.sockets, SocketNotFoundError),
                   (uuidValid, InvalidUuidError),
                   (uuidPermitted, PermissionDeniedError)];
    assert checks[1..] == [checks[1], checks[2]];
    assert checks[1..][1..] == [checks[2]];
    assert checks[1..][1..][1..] == [];
  }

  /** The requested channel (RFCOMM) or PSM (L2CAP) is the option when given, otherwise automatic. */
  lemma ListenPortChoice(options: Option<ListenOptions>)
    ensures options.Some? && options.value.channel.Some? ==> RequestedPort(options, Rfcomm) == Fixed(options.value.channel.value)
    ensures options.None? || options.value.channel.None? ==> RequestedPort(options, Rfcomm) == Auto
    ensures options.Some? && options.value.psm.Some? ==> RequestedPort(options, L2cap) == Fixed(options.value.psm.value)
    ensures options.None? || options.value.psm.None? ==> RequestedPort(options, L2cap) == Auto
  {
  }

  // ---------------------------------------------------------------------------
  // connect, disconnect, send

  /**
   * OnGetAdapter for connect: the socket must resolve, the device be found,
   * the UUID be valid and the manifest permit it, checked in that order; then
   * the device is asked to connect and the call waits for its callback.
   */
  function ConnectOnGetAdapter(s: ApiState, owner: string, socketId: int, address: string, uuid: string,
                               deviceFound: bool, uuidValid: bool, uuidPermitted: bool): (ApiState, Reply)
  {
    if SocketKey(owner, socketId) !in s.sockets then (s, Fail(Started, SocketNotFoundError))
    else if !deviceFound then (s, Fail(Started, DeviceNotFoundError))
    else if !uuidValid then (s, Fail(Started, InvalidUuidError))
    else if !uuidPermitted then (s, Fail(Started, PermissionDeniedError))
    else (s.(deviceCalls := s.deviceCalls + [ConnectToService(address, uuid)]), Started)
  }

  /**
   * Connect reaches the device exactly when all four checks pass; otherwise it
   * answers once with the first failing check's error (an unknown device is
   * reported before an invalid UUID) and changes nothing.
   */
  lemma ConnectCheckOrder(s: ApiState, owner: string, socketId: int, address: string, uuid: string,
                          deviceFound: bool, uuidValid: bool, uuidPermitted: bool)
    ensures var (t, r) := ConnectOnGetAdapter(s, owner, socketId, address, uuid, deviceFound, uuidValid, uuidPermitted);
      var failure := FirstFailure([(SocketKey(owner, socketId) in s.sockets, SocketNotFoundError),
                                   (deviceFound, DeviceNotFoundError),
                                   (uuidValid, InvalidUuidError),
                                   (uuidPermitted, PermissionDeniedError)]);
      && (failure.None? ==> t.deviceCalls == s.deviceCalls + [ConnectToService(address, uuid)] && r == Started)
      && (failure.Some? ==> t == s && r == Reply(true, failure.value, NoResults, 1))
      && t.sockets == s.sockets && t.events == s.events
  {
    var checks := [(SocketKey(owner, socketId) in s.sockets, SocketNotFoundError),
                   (deviceFound, DeviceNotFoundError),
                   (uuidValid, InvalidUuidError),
                   (uuidPermitted, PermissionDeniedError)];
    assert checks[1..] == [checks[1], checks[2], checks[3]];
    assert checks[1..][1..] == [checks[2], checks[3]];
    assert checks[1..][1..][1..] == [checks[3]];
    assert checks[1..][1..][1..][1..] == [];
  }

  /** AdoptConnectedSocket: the record now stands for a connection to `address` on `uuid`. */
  function AdoptConnected(rec: SocketRecord, address: string, uuid: string): SocketRecord {
    rec.(connected := true, deviceAddress := address, uuid := uuid)
  }

  /** OnConnect: looks the socket up again; when it is still there, adopts the connection and fires the connect event. */
  function ConnectOnConnect(s: ApiState, owner: string, socketId: int, address: string, uuid: string, r: Reply): (ApiState, Reply) {
    var key := SocketKey(owner, socketId);
    if key !in s.sockets then (s, Fail(r, SocketNotFoundError))
    else (s.(sockets := s.sockets[key := AdoptConnected(s.sockets[key], address, uuid)], events := s.events + [OnSocketConnect(key)]),
          Succeed(r, Done))
  }

  function ConnectOnConnectError(r: Reply, message: string): Reply {
    Fail(r, message)
  }

  /**
   * A socket closed while its listen or connect request was pending is not
   * brought back: the callback answers "Socket not found", adopts nothing and
   * fires no event. Otherwise the callback fires exactly one event for the
   * socket and answers success.
   */
  lemma CallbacksRefetchSocket(s: ApiState, owner: string, socketId: int, address: string, uuid: string, r: Reply)
    ensures var key := SocketKey(owner, socketId);
      key !in s.sockets ==>
        && ListenOnCreateService(s, owner, socketId, uuid, r) == (s, Fail(r, SocketNotFoundError))
        && ConnectOnConnect(s, owner, socketId, address, uuid, r) == (s, Fail(r, SocketNotFoundError))
    ensures var key := SocketKey(owner, socketId);
      key in s.sockets ==>
        var (t1, r1) := ListenOnCreateService(s, owner, socketId, uuid, r);
        var (t2, r2) := ConnectOnConnect(s, owner, socketId, address, uuid, r);
        && t1.events == s.events + [OnSocketListen(key)] && t1.sockets[key].uuid == uuid && !t1.sockets[key].connected
        && t2.events == s.events + [OnSocketConnect(key)] && t2.sockets[key].connected
        && CreateSocketInfo(socketId, t2.sockets[key]).address == Some(address)
        && r1.error == r.error && r2.error == r.error
        && r1.completions == r.completions + 1 && r2.completions == r.completions + 1
  {
  }

  /** A closed socket stays closed across a connect: closing, then the pending connect finishing, leaves it absent. */
  lemma {:induction false} CloseDuringConnect(s: ApiState, owner: string, socketId: int, address: string, uuid: string)
    requires SocketKey(owner, socketId) in s.sockets
    ensures var (t0, r0) := ConnectOnGetAdapter(s, owner, socketId, address, uuid, true, true, true);
      var (t1, _) := CloseWork(t0, owner, socketId);
      var (t2, r2) := ConnectOnConnect(t1, owner, socketId, address, uuid, r0);
      && SocketKey(owner, socketId) !in t2.sockets
      && r2 == Reply(true, SocketNotFoundError, NoResults, 1)
      && t2.events == s.events
  {
    var (t0, r0) := ConnectOnGetAdapter(s, owner, socketId, address, uuid, true, true, true);
    assert r0 == Started && t0.sockets == s.sockets;
    CloseThenCloseFails(t0, owner, socketId);
    var (t1, _) := CloseWork(t0, owner, socketId);
    CallbacksRefetchSocket(t1, owner, socketId, address, uuid, r0);
  }

  /** disconnect: asks the device socket to disconnect and waits for it; the record itself is not changed here. */
  function DisconnectStart(s: ApiState, owner: string, socketId: int): (ApiState, Reply) {
    var key := SocketKey(owner, socketId);
    if key !in s.sockets then (s, Fail(Started, SocketNotFoundError))
    else (s.(deviceCalls := s.deviceCalls + [DisconnectSocket(key)]), Started)
  }

  function DisconnectOnSuccess(r: Reply): Reply {
    Succeed(r, Done)
  }

  /**
   * Disconnecting a known socket only requests it from the device socket:
   * the registry is unchanged and the call answers once the request succeeds.
   */
  lemma DisconnectRequestsOnly(s: ApiState, owner: string, socketId: int)
    requires SocketKey(owner, socketId) in s.sockets
    ensures var (t, r) := DisconnectStart(s, owner, socketId);
      && t.sockets == s.sockets && t.nextId == s.nextId && t.events == s.events
      && t.deviceCalls == s.deviceCalls + [DisconnectSocket(SocketKey(owner, socketId))]
      && r == Started
      && DisconnectOnSuccess(r) == Reply(true, "", Done, 1)
  {
  }

  /**
   * send: hands the data to the device socket, whatever its connection state.
   * On an unknown id it sets "Socket not found" but never sends a response.
   */
  function SendStart(s: ApiState, owner: string, socketId: int, size: nat): (ApiState, Reply) {
    var key := SocketKey(owner, socketId);
    if key !in s.sockets then (s, Started.(error := SocketNotFoundError))
    else (s.(deviceCalls := s.deviceCalls + [SendData(key, size)]), Started)
  }

  function SendOnSuccess(r: Reply, bytesSent: int): Reply {
    Succeed(r, BytesSent(bytesSent))
  }

  function SendOnError(r: Reply, message: string): Reply {
    Fail(r, message)
  }

  /**
   * Send to an unknown id answers nothing, while a known one is handed over
   * even when not connected; it completes only through a callback.
   */
  lemma SendChecksOnlyTheRegistry(s: ApiState, owner: string, socketId: int, size: nat, bytesSent: int, message: string)
    ensures var key := SocketKey(owner, socketId);
      key !in s.sockets ==> SendStart(s, owner, socketId, size) == (s, Reply(true, SocketNotFoundError, NoResults, 0))
    ensures var key := SocketKey(owner, socketId);
      key in s.sockets ==>
        && SendStart(s, owner, socketId, size).0.deviceCalls == s.deviceCalls + [SendData(key, size)]
        && SendStart(s, owner, socketId, size).1 == Started
        && SendOnSuccess(Started, bytesSent) == Reply(true, "", BytesSent(bytesSent), 1)
        && SendOnError(Started, message) == Reply(true, message, NoResults, 1)
  {
  }

  /** Every call keeps the registry's ids below the next id. */
  lemma CallsKeepValid(s: ApiState, owner: string, socketId: int, props: SocketProperties, createProps: Option<SocketProperties>,
                       paused: bool, uuid: string, address: string, r: Reply)
    requires Valid(s)
    ensures Valid(CreateWork(s, owner, createProps).0)
    ensures Valid(UpdateWork(s, owner, socketId, props).0)
    ensures Valid(SetPausedWork(s, owner, socketId, paused).0)
    ensures Valid(CloseWork(s, owner, socketId).0)
    ensures Valid(ListenOnCreateService(s, owner, socketId, uuid, r).0)
    ensures Valid(ConnectOnConnect(s, owner, socketId, address, uuid, r).0)
    ensures Valid(DisconnectStart(s, owner, socketId).0)
  {
  }

  // ---------------------------------------------------------------------------
  // The registry as the API functions see it

  class SocketApi {
    var sockets: map<SocketKey, SocketRecord>
    var nextId: int
    var events: seq<SocketEvent>
    var deviceCalls: seq<DeviceCall>

    function State(): ApiState
      reads this
    {
      ApiState(sockets, nextId, events, deviceCalls)
    }

    constructor ()
      ensures State() == EmptyApi && Valid(State())
    {
      sockets := map[];
      nextId := 1;
      events := [];
      deviceCalls := [];
    }

    /** ApiResourceManager::Add: registers under the next id. */
    method AddSocket(owner: string, rec: SocketRecord) returns (socketId: int)
      modifies this
      ensures socketId == old(nextId) && nextId == old(nextId) + 1
      ensures sockets == old(sockets)[SocketKey(owner, socketId) := rec]
      ensures events == old(events) && deviceCalls == old(deviceCalls)
    {
      socketId := nextId;
      sockets := sockets[SocketKey(owner, socketId) := rec];
      nextId := nextId + 1;
    }

    method Create(owner: string, props: Option<SocketProperties>, socketPermitted: bool) returns (reply: Reply)
      modifies this
      ensures (State(), reply) == Gate(socketPermitted, old(State()), CreateWork(old(State()), owner, props))
    {
      if !socketPermitted {
        return Refused;
      }
      var socket := NewSocket;
      if props.Some? {
        socket := SetSocketProperties(socket, props.value);
      }
      var socketId := AddSocket(owner, socket);
      reply := Succeed(Started, Created(socketId));
    }

    method Update(owner: string, socketId: int, props: SocketProperties, socketPermitted: bool) returns (reply: Reply)
      modifies this
      ensures (State(), reply) == Gate(socketPermitted, old(State()), UpdateWork(old(State()), owner, socketId, props))
    {
      if !socketPermitted {
        return Refused;
      }
      reply := Started;
      var key := SocketKey(owner, socketId);
      if key !in sockets {
        reply := reply.(error := SocketNotFoundError);
      } else {
        sockets := sockets[key := SetSocketProperties(sockets[key], props)];
        reply := reply.(results := Done);
      }
      reply := Complete(reply);
    }

    method SetPaused(owner: string, socketId: int, paused: bool, socketPermitted: bool) returns (reply: Reply)
      modifies this
      ensures (State(), reply) == Gate(socketPermitted, old(State()), SetPausedWork(old(State()), owner, socketId, paused))
    {
      if !socketPermitted {
        return Refused;
      }
      reply := Started;
      var key := SocketKey(owner, socketId);
      if key !in sockets {
        reply := reply.(error := SocketNotFoundError);
      } else {
        if sockets[key].paused != paused {
          sockets := sockets[key := sockets[key].(paused := paused)];
          if !paused {
            events := events + [OnSocketResume(key)];
          }
        }
        reply := reply.(results := Done);
      }
      reply := Complete(reply);
    }

    method Close(owner: string, socketId: int, socketPermitted: bool) returns (reply: Reply)
      modifies this
      ensures (State(), reply) == Gate(socketPermitted, old(State()), CloseWork(old(State()), owner, socketId))
    {
      if !socketPermitted {
        return Refused;
      }
      reply := Started;
      var key := SocketKey(owner, socketId);
      if key !in sockets {
        reply := reply.(error := SocketNotFoundError);
      } else {
        sockets := sockets - {key};
        reply := reply.(results := Done);
      }
      reply := Complete(reply);
    }

    /** listenUsingRfcomm / listenUsingL2cap up to the service request. */
    method Listen(owner: string, socketId: int, protocol: Protocol, uuid: string, options: Option<ListenOptions>,
                  uuidValid: bool, uuidPermitted: bool, socketPermitted: bool) returns (reply: Reply)
      modifies this
      ensures (State(), reply) == Gate(socketPermitted, old(State()),
        ListenOnGetAdapter(old(State()), owner, socketId, protocol, uuid, options, uuidValid, uuidPermitted))
    {
      if !socketPermitted {
        return Refused;
      }
      reply := Started;
      if SocketKey(owner, socketId) !in sockets {
        return Fail(reply, SocketNotFoundError);
      }
      if !uuidValid {
        return Fail(reply, InvalidUuidError);
      }
      if !uuidPermitted {
        return Fail(reply, PermissionDeniedError);
      }
      var port := Auto;
      if options.Some? {
        var requested := if protocol == Rfcomm then options.value.channel else options.value.psm;
        if requested.Some? {
          port := Fixed(requested.value);
        }
      }
      deviceCalls := deviceCalls + [ServiceRequest(protocol, uuid, port)];
    }

    method OnCreateService(owner: string, socketId: int, uuid: string, pending: Reply) returns (reply: Reply)
      modifies this
      ensures (State(), reply) == ListenOnCreateService(old(State()), owner, socketId, uuid, pending)
    {
      var key := SocketKey(owner, socketId);
      if key !in sockets {
        return Fail(pending, SocketNotFoundError);
      }
      sockets := sockets[key := AdoptListening(sockets[key], uuid)];
      events := events + [OnSocketListen(key)];
      reply := Succeed(pending, Done);
    }

    /** connect up to the device's connection request. */
    method Connect(owner: string, socketId: int, address: string, uuid: string,
                   deviceFound: bool, uuidValid: bool, uuidPermitted: bool, socketPermitted: bool) returns (reply: Reply)
      modifies this
      ensures (State(), reply) == Gate(socketPermitted, old(State()),
        ConnectOnGetAdapter(old(State()), owner, socketId, address, uuid, deviceFound, uuidValid, uuidPermitted))
    {
      if !socketPermitted {
        return Refused;
      }
      reply := Started;
      if SocketKey(owner, socketId) !in sockets {
        return Fail(reply, SocketNotFoundError);
      }
      if !deviceFound {
        return Fail(reply, DeviceNotFoundError);
      }
      if !uuidValid {
        return Fail(reply, InvalidUuidError);
      }
      if !uuidPermitted {
        return Fail(reply, PermissionDeniedError);
      }
      deviceCalls := deviceCalls + [ConnectToService(address, uuid)];
    }

    method OnConnect(owner: string, socketId: int, address: string, uuid: string, pending: Reply) returns (reply: Reply)
      modifies this
      ensures (State(), reply) == ConnectOnConnect(old(State()), owner, socketId, address, uuid, pending)
    {
      var key := SocketKey(owner, socketId);
      if key !in sockets {
        return Fail(pending, SocketNotFoundError);
      }
      sockets := sockets[key := AdoptConnected(sockets[key], address, uuid)];
      events := events + [OnSocketConnect(key)];
      reply := Succeed(pending, Done);
    }

    method Disconnect(owner: string, socketId: int, socketPermitted: bool) returns (reply: Reply)
      modifies this
      ensures (State(), reply) == Gate(socketPermitted, old(State()), DisconnectStart(old(State()), owner, socketId))
    {
      if !socketPermitted {
        return Refused;
      }
      reply := Started;
      var key := SocketKey(owner, socketId);
      if key !in sockets {
        return Fail(reply, SocketNotFoundError);
      }
      deviceCalls := deviceCalls + [DisconnectSocket(key)];
    }

    method Send(owner: string, socketId: int, data: seq<bv8>, socketPermitted: bool) returns (reply: Reply)
      modifies this
      ensures (State(), reply) == Gate(socketPermitted, old(State()), SendStart(old(State()), owner, socketId, |data|))
    {
      if !socketPermitted {
        return Refused;
      }
      reply := Started;
      var key := SocketKey(owner, socketId);
      if key !in sockets {
        reply := reply.(error := SocketNotFoundError);
        return;
      }
      deviceCalls := deviceCalls + [SendData(key, |data|)];
    }

    method GetInfo(owner: string, socketId: int, socketPermitted: bool) returns (reply: Reply)
      ensures reply == if socketPermitted then GetInfoWork(State(), owner, socketId) else Refused
    {
      if !socketPermitted {
        return Refused;
      }
      reply := Started;
      var key := SocketKey(owner, socketId);
      if key !in sockets {
        reply := reply.(error := SocketNotFoundError);
      } else {
        reply := reply.(results := Info(CreateSocketInfo(socketId, sockets[key])));
      }
      reply := Complete(reply);
    }

    /** getSockets: describes every socket of the owner, in the registry's own order. */
    method GetSockets(owner: string, socketPermitted: bool) returns (reply: Reply)
      ensures !socketPermitted ==> reply == Refused
      ensures socketPermitted ==>
        && reply.runAsync && reply.error == "" && reply.completions == 1 && reply.results.Infos?
        && ListsOwnerSockets(State(), owner, reply.results.infos)
    {
      if !socketPermitted {
        return Refused;
      }
      var socketInfos: seq<SocketInfo> := [];
      var resourceIds := set k | k in sockets && k.owner == owner :: k.id;
      var remaining := resourceIds;
      while remaining != {}
        invariant remaining <= resourceIds
        invariant forall i :: 0 <= i < |socketInfos| ==>
          SocketKey(owner, socketInfos[i].socketId) in sockets
          && socketInfos[i] == CreateSocketInfo(socketInfos[i].socketId, sockets[SocketKey(owner, socketInfos[i].socketId)])
          && socketInfos[i].socketId !in remaining
        invariant forall id :: id in resourceIds && id !in remaining ==>
          exists i :: 0 <= i < |socketInfos| && socketInfos[i].socketId == id
        invariant forall i, j :: 0 <= i < j < |socketInfos| ==> socketInfos[i].socketId != socketInfos[j].socketId
        decreases remaining
      {
        var socketId :| socketId in remaining;
        var key := SocketKey(owner, socketId);
        assert key in sockets by {
          var k :| k in sockets && k.owner == owner && k.id == socketId;
          assert k == key;
        }
        if key in sockets {
          ghost var before := socketInfos;
          socketInfos := socketInfos + [CreateSocketInfo(socketId, sockets[key])];
          assert socketInfos[|before|].socketId == socketId;
          assert forall i :: 0 <= i < |before| ==> socketInfos[i] == before[i];
        }
        remaining := remaining - {socketId};
      }
      forall k | k in sockets && k.owner == owner
        ensures exists i :: 0 <= i < |socketInfos| && socketInfos[i].socketId == k.id
      {
        assert k == SocketKey(owner, k.id);
        assert k.id in resourceIds;
      }
      reply := Succeed(Started, Infos(socketInfos));
    }
  }
}
