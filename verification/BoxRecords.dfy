/**
 The speaker record of `desktop-app/discovery_types.go`. The forty-three fields
 of the flat Go struct stand in six groups, and each field has a name of its own
 so that the merge policy can be a table over names.
 */
module BoxRecords {

  /** Whether a speaker runs the STR agent or the stock Bose firmware alone. */
  datatype BoxKind = STR | Stock

  /** Who the speaker is and where it answers. */
  datatype Identity = Identity(
    name: string,
    host: string,
    port: int,
    portVerified: bool,
    deviceID: string,
    boxDeviceID: string,
    friendlyName: string,
    model: string,
    serialNumber: string,
    kind: BoxKind
  )

  /** What the STR agent says about its own build and addresses. */
  datatype Agent = Agent(
    version: string,
    build: string,
    agentBinarySha256: string,
    agentRunningSha256: string,
    presetRows: string,
    lanAddrs: string,
    wiredAddrs: string
  )

  /** The marks one discovery cycle puts on the record. */
  datatype Cycle = Cycle(
    offline: bool,
    offlineSinceSec: int,
    unreachable: bool,
    strNotRunning: bool,
    strSilent: bool,
    otaPending: bool
  )

  /** The agent's verdicts that the cache keeps. */
  datatype Health = Health(
    boxHealth: string,
    internet: string,
    internetReason: string,
    arcadeAt: string
  )

  /** The warnings only a live probe carries. */
  datatype Warnings = Warnings(
    conflictingMod: string,
    foreignCloudURL: string,
    rivalCloudURL: string,
    speakerNameUnsafe: bool,
    storm1036: bool,
    storm1036SinceSec: int,
    recallRefusal: bool,
    recallRefusalSinceSec: int,
    wlanCredsMissing: bool
  )

  /** The recent key refusals and dropouts a live probe reports. */
  datatype Events = Events(
    groupKeyError: string,
    groupKeyErrorKind: string,
    weakWifiDropout: string,
    weakWifiDropoutAgeSec: int,
    holdRefusedSource: string,
    holdRefusedSlot: string,
    staleFolderKeySlot: string
  )

  datatype BoxInfo = BoxInfo(
    id: Identity,
    agent: Agent,
    cycle: Cycle,
    health: Health,
    warn: Warnings,
    events: Events
  )

  datatype IdentityName = Name | Host | Port | PortVerified | DeviceID | BoxDeviceID | FriendlyName
    | Model | SerialNumber | Kind

  datatype AgentName = Version | Build | AgentBinarySha256 | AgentRunningSha256 | PresetRows | LANAddrs
    | WiredAddrs

  datatype CycleName = Offline | OfflineSinceSec | Unreachable | STRNotRunning | STRSilent | OTAPending

  datatype HealthName = BoxHealth | Internet | InternetReason | ArcadeAt

  datatype WarningsName = ConflictingMod | ForeignCloudURL | RivalCloudURL | SpeakerNameUnsafe
    | Storm1036 | Storm1036SinceSec | RecallRefusal | RecallRefusalSinceSec | WLANCredsMissing

  datatype EventsName = GroupKeyError | GroupKeyErrorKind | WeakWifiDropout | WeakWifiDropoutAgeSec
    | HoldRefusedSource | HoldRefusedSlot | StaleFolderKeySlot

  /** The name of a field of `BoxInfo`, with the group it stands in. */
  datatype Field =
    | IdentityField(id: IdentityName)
    | AgentField(agent: AgentName)
    | CycleField(cycle: CycleName)
    | HealthField(health: HealthName)
    | WarningsField(warn: WarningsName)
    | EventsField(events: EventsName)

  /** The empty record: every field at its zero value. The zero kind is neither kind in the Go
      struct; every caller that starts from this record sets the kind itself. */
  const EMPTY_BOX := BoxInfo(
    Identity("", "", 0, false, "", "", "", "", "", Stock),
    Agent("", "", "", "", "", "", ""),
    Cycle(false, 0, false, false, false, false),
    Health("", "", "", ""),
    Warnings("", "", "", false, false, 0, false, 0, false),
    Events("", "", "", 0, "", "", ""))

  /** Whether field `f` of `b` holds its zero value; a kind is always set. */
  predicate IsZero(b: BoxInfo, f: Field) {
    match f
    case IdentityField(Name) => b.id.name == ""
    case IdentityField(Host) => b.id.host == ""
    case IdentityField(Port) => b.id.port == 0
    case IdentityField(PortVerified) => !b.id.portVerified
    case IdentityField(DeviceID) => b.id.deviceID == ""
    case IdentityField(BoxDeviceID) => b.id.boxDeviceID == ""
    case IdentityField(FriendlyName) => b.id.friendlyName == ""
    case IdentityField(Model) => b.id.model == ""
    case IdentityField(SerialNumber) => b.id.serialNumber == ""
    case IdentityField(Kind) => false
    case AgentField(Version) => b.agent.version == ""
    case AgentField(Build) => b.agent.build == ""
    case AgentField(AgentBinarySha256) => b.agent.agentBinarySha256 == ""
    case AgentField(AgentRunningSha256) => b.agent.agentRunningSha256 == ""
    case AgentField(PresetRows) => b.agent.presetRows == ""
    case AgentField(LANAddrs) => b.agent.lanAddrs == ""
    case AgentField(WiredAddrs) => b.agent.wiredAddrs == ""
    case CycleField(Offline) => !b.cycle.offline
    case CycleField(OfflineSinceSec) => b.cycle.offlineSinceSec == 0
    case CycleField(Unreachable) => !b.cycle.unreachable
    case CycleField(STRNotRunning) => !b.cycle.strNotRunning
    case CycleField(STRSilent) => !b.cycle.strSilent
    case CycleField(OTAPending) => !b.cycle.otaPending
    case HealthField(BoxHealth) => b.health.boxHealth == ""
    case HealthField(Internet) => b.health.internet == ""
    case HealthField(InternetReason) => b.health.internetReason == ""
    case HealthField(ArcadeAt) => b.health.arcadeAt == ""
    case WarningsField(ConflictingMod) => b.warn.conflictingMod == ""
    case WarningsField(ForeignCloudURL) => b.warn.foreignCloudURL == ""
    case WarningsField(RivalCloudURL) => b.warn.rivalCloudURL == ""
    case WarningsField(SpeakerNameUnsafe) => !b.warn.speakerNameUnsafe
    case WarningsField(Storm1036) => !b.warn.storm1036
    case WarningsField(Storm1036SinceSec) => b.warn.storm1036SinceSec == 0
    case WarningsField(RecallRefusal) => !b.warn.recallRefusal
    case WarningsField(RecallRefusalSinceSec) => b.warn.recallRefusalSinceSec == 0
    case WarningsField(WLANCredsMissing) => !b.warn.wlanCredsMissing
    case EventsField(GroupKeyError) => b.events.groupKeyError == ""
    case EventsField(GroupKeyErrorKind) => b.events.groupKeyErrorKind == ""
    case EventsField(WeakWifiDropout) => b.events.weakWifiDropout == ""
    case EventsField(WeakWifiDropoutAgeSec) => b.events.weakWifiDropoutAgeSec == 0
    case EventsField(HoldRefusedSource) => b.events.holdRefusedSource == ""
    case EventsField(HoldRefusedSlot) => b.events.holdRefusedSlot == ""
    case EventsField(StaleFolderKeySlot) => b.events.staleFolderKeySlot == ""
  }

  function CopyIdentity(dst: Identity, src: Identity, f: IdentityName): Identity {
    match f
    case Name => dst.(name := src.name)
    case Host => dst.(host := src.host)
    case Port => dst.(port := src.port)
    case PortVerified => dst.(portVerified := src.portVerified)
    case DeviceID => dst.(deviceID := src.deviceID)
    case BoxDeviceID => dst.(boxDeviceID := src.boxDeviceID)
    case FriendlyName => dst.(friendlyName := src.friendlyName)
    case Model => dst.(model := src.model)
    case SerialNumber => dst.(serialNumber := src.serialNumber)
    case Kind => dst.(kind := src.kind)
  }

  function CopyAgent(dst: Agent, src: Agent, f: AgentName): Agent {
    match f
    case Version => dst.(version := src.version)
    case Build => dst.(build := src.build)
    case AgentBinarySha256 => dst.(agentBinarySha256 := src.agentBinarySha256)
    case AgentRunningSha256 => dst.(agentRunningSha256 := src.agentRunningSha256)
    case PresetRows => dst.(presetRows := src.presetRows)
    case LANAddrs => dst.(lanAddrs := src.lanAddrs)
    case WiredAddrs => dst.(wiredAddrs := src.wiredAddrs)
  }

  function CopyCycle(dst: Cycle, src: Cycle, f: CycleName): Cycle {
    match f
    case Offline => dst.(offline := src.offline)
    case OfflineSinceSec => dst.(offlineSinceSec := src.offlineSinceSec)
    case Unreachable => dst.(unreachable := src.unreachable)
    case STRNotRunning => dst.(strNotRunning := src.strNotRunning)
    case STRSilent => dst.(strSilent := src.strSilent)
    case OTAPending => dst.(otaPending := src.otaPending)
  }

  function CopyHealth(dst: Health, src: Health, f: HealthName): Health {
    match f
    case BoxHealth => dst.(boxHealth := src.boxHealth)
    case Internet => dst.(internet := src.internet)
    case InternetReason => dst.(internetReason := src.internetReason)
    case ArcadeAt => dst.(arcadeAt := src.arcadeAt)
  }

  function CopyWarnings(dst: Warnings, src: Warnings, f: WarningsName): Warnings {
    match f
    case ConflictingMod => dst.(conflictingMod := src.conflictingMod)
    case ForeignCloudURL => dst.(foreignCloudURL := src.foreignCloudURL)
    case RivalCloudURL => dst.(rivalCloudURL := src.rivalCloudURL)
    case SpeakerNameUnsafe => dst.(speakerNameUnsafe := src.speakerNameUnsafe)
    case Storm1036 => dst.(storm1036 := src.storm1036)
    case Storm1036SinceSec => dst.(storm1036SinceSec := src.storm1036SinceSec)
    case RecallRefusal => dst.(recallRefusal := src.recallRefusal)
    case RecallRefusalSinceSec => dst.(recallRefusalSinceSec := src.recallRefusalSinceSec)
    case WLANCredsMissing => dst.(wlanCredsMissing := src.wlanCredsMissing)
  }

  function CopyEvents(dst: Events, src: Events, f: EventsName): Events {
    match f
    case GroupKeyError => dst.(groupKeyError := src.groupKeyError)
    case GroupKeyErrorKind => dst.(groupKeyErrorKind := src.groupKeyErrorKind)
    case WeakWifiDropout => dst.(weakWifiDropout := src.weakWifiDropout)
    case WeakWifiDropoutAgeSec => dst.(weakWifiDropoutAgeSec := src.weakWifiDropoutAgeSec)
    case HoldRefusedSource => dst.(holdRefusedSource := src.holdRefusedSource)
    case HoldRefusedSlot => dst.(holdRefusedSlot := src.holdRefusedSlot)
    case StaleFolderKeySlot => dst.(staleFolderKeySlot := src.staleFolderKeySlot)
  }

  /** `dst` with field `f` taken from `src`. */
  function CopyField(dst: BoxInfo, src: BoxInfo, f: Field): BoxInfo {
    match f
    case IdentityField(n) => dst.(id := CopyIdentity(dst.id, src.id, n))
    case AgentField(n) => dst.(agent := CopyAgent(dst.agent, src.agent, n))
    case CycleField(n) => dst.(cycle := CopyCycle(dst.cycle, src.cycle, n))
    case HealthField(n) => dst.(health := CopyHealth(dst.health, src.health, n))
    case WarningsField(n) => dst.(warn := CopyWarnings(dst.warn, src.warn, n))
    case EventsField(n) => dst.(events := CopyEvents(dst.events, src.events, n))
  }

  predicate SameIdentity(a: Identity, b: Identity, f: IdentityName) {
    match f
    case Name => a.name == b.name
    case Host => a.host == b.host
    case Port => a.port == b.port
    case PortVerified => a.portVerified == b.portVerified
    case DeviceID => a.deviceID == b.deviceID
    case BoxDeviceID => a.boxDeviceID == b.boxDeviceID
    case FriendlyName => a.friendlyName == b.friendlyName
    case Model => a.model == b.model
    case SerialNumber => a.serialNumber == b.serialNumber
    case Kind => a.kind == b.kind
  }

  predicate SameAgent(a: Agent, b: Agent, f: AgentName) {
    match f
    case Version => a.version == b.version
    case Build => a.build == b.build
    case AgentBinarySha256 => a.agentBinarySha256 == b.agentBinarySha256
    case AgentRunningSha256 => a.agentRunningSha256 == b.agentRunningSha256
    case PresetRows => a.presetRows == b.presetRows
    case LANAddrs => a.lanAddrs == b.lanAddrs
    case WiredAddrs => a.wiredAddrs == b.wiredAddrs
  }

  predicate SameCycle(a: Cycle, b: Cycle, f: CycleName) {
    match f
    case Offline => a.offline == b.offline
    case OfflineSinceSec => a.offlineSinceSec == b.offlineSinceSec
    case Unreachable => a.unreachable == b.unreachable
    case STRNotRunning => a.strNotRunning == b.strNotRunning
    case STRSilent => a.strSilent == b.strSilent
    case OTAPending => a.otaPending == b.otaPending
  }

  predicate SameHealth(a: Health, b: Health, f: HealthName) {
    match f
    case BoxHealth => a.boxHealth == b.boxHealth
    case Internet => a.internet == b.internet
    case InternetReason => a.internetReason == b.internetReason
    case ArcadeAt => a.arcadeAt == b.arcadeAt
  }

  predicate SameWarnings(a: Warnings, b: Warnings, f: WarningsName) {
    match f
    case ConflictingMod => a.conflictingMod == b.conflictingMod
    case ForeignCloudURL => a.foreignCloudURL == b.foreignCloudURL
    case RivalCloudURL => a.rivalCloudURL == b.rivalCloudURL
    case SpeakerNameUnsafe => a.speakerNameUnsafe == b.speakerNameUnsafe
    case Storm1036 => a.storm1036 == b.storm1036
    case Storm1036SinceSec => a.storm1036SinceSec == b.storm1036SinceSec
    case RecallRefusal => a.recallRefusal == b.recallRefusal
    case RecallRefusalSinceSec => a.recallRefusalSinceSec == b.recallRefusalSinceSec
    case WLANCredsMissing => a.wlanCredsMissing == b.wlanCredsMissing
  }

  predicate SameEvents(a: Events, b: Events, f: EventsName) {
    match f
    case GroupKeyError => a.groupKeyError == b.groupKeyError
    case GroupKeyErrorKind => a.groupKeyErrorKind == b.groupKeyErrorKind
    case WeakWifiDropout => a.weakWifiDropout == b.weakWifiDropout
    case WeakWifiDropoutAgeSec => a.weakWifiDropoutAgeSec == b.weakWifiDropoutAgeSec
    case HoldRefusedSource => a.holdRefusedSource == b.holdRefusedSource
    case HoldRefusedSlot => a.holdRefusedSlot == b.holdRefusedSlot
    case StaleFolderKeySlot => a.staleFolderKeySlot == b.staleFolderKeySlot
  }

  /** Whether `a` and `b` agree on field `f`. */
  predicate SameField(a: BoxInfo, b: BoxInfo, f: Field) {
    match f
    case IdentityField(n) => SameIdentity(a.id, b.id, n)
    case AgentField(n) => SameAgent(a.agent, b.agent, n)
    case CycleField(n) => SameCycle(a.cycle, b.cycle, n)
    case HealthField(n) => SameHealth(a.health, b.health, n)
    case WarningsField(n) => SameWarnings(a.warn, b.warn, n)
    case EventsField(n) => SameEvents(a.events, b.events, n)
  }

  /** Copying a field changes that field to the source's and leaves every other one. */
  lemma CopyFieldEffect(dst: BoxInfo, src: BoxInfo, f: Field, g: Field)
    ensures SameField(CopyField(dst, src, f), if g == f then src else dst, g)
  {
    match f
    case IdentityField(n) => if g.IdentityField? { CopyIdentityEffect(dst.id, src.id, n, g.id); }
    case AgentField(n) => if g.AgentField? { CopyAgentEffect(dst.agent, src.agent, n, g.agent); }
    case CycleField(n) => if g.CycleField? { CopyCycleEffect(dst.cycle, src.cycle, n, g.cycle); }
    case HealthField(n) => if g.HealthField? { CopyHealthEffect(dst.health, src.health, n, g.health); }
    case WarningsField(n) => if g.WarningsField? { CopyWarningsEffect(dst.warn, src.warn, n, g.warn); }
    case EventsField(n) => if g.EventsField? { CopyEventsEffect(dst.events, src.events, n, g.events); }
  }

  lemma CopyIdentityEffect(dst: Identity, src: Identity, f: IdentityName, g: IdentityName)
    ensures SameIdentity(CopyIdentity(dst, src, f), if g == f then src else dst, g)
  {
  }

  lemma CopyAgentEffect(dst: Agent, src: Agent, f: AgentName, g: AgentName)
    ensures SameAgent(CopyAgent(dst, src, f), if g == f then src else dst, g)
  {
  }

  lemma CopyCycleEffect(dst: Cycle, src: Cycle, f: CycleName, g: CycleName)
    ensures SameCycle(CopyCycle(dst, src, f), if g == f then src else dst, g)
  {
  }

  lemma CopyHealthEffect(dst: Health, src: Health, f: HealthName, g: HealthName)
    ensures SameHealth(CopyHealth(dst, src, f), if g == f then src else dst, g)
  {
  }

  lemma CopyWarningsEffect(dst: Warnings, src: Warnings, f: WarningsName, g: WarningsName)
    ensures SameWarnings(CopyWarnings(dst, src, f), if g == f then src else dst, g)
  {
  }

  lemma CopyEventsEffect(dst: Events, src: Events, f: EventsName, g: EventsName)
    ensures SameEvents(CopyEvents(dst, src, f), if g == f then src else dst, g)
  {
  }

  lemma SameFieldSelf(a: BoxInfo, f: Field)
    ensures SameField(a, a, f)
  {
  }

  lemma SameFieldTrans(a: BoxInfo, b: BoxInfo, c: BoxInfo, f: Field)
    requires SameField(a, b, f)
    requires SameField(b, c, f) || SameField(c, b, f)
    ensures SameField(a, c, f)
  {
  }

  /** Two records that agree on every field are the same record. */
  lemma SameRecord(a: BoxInfo, b: BoxInfo)
    requires forall f :: SameField(a, b, f)
    ensures a == b
  {
    forall n: IdentityName ensures SameIdentity(a.id, b.id, n) { assert SameField(a, b, IdentityField(n)); }
    SameIdentityRecord(a.id, b.id);
    forall n: AgentName ensures SameAgent(a.agent, b.agent, n) { assert SameField(a, b, AgentField(n)); }
    SameAgentRecord(a.agent, b.agent);
    forall n: CycleName ensures SameCycle(a.cycle, b.cycle, n) { assert SameField(a, b, CycleField(n)); }
    SameCycleRecord(a.cycle, b.cycle);
    forall n: HealthName ensures SameHealth(a.health, b.health, n) { assert SameField(a, b, HealthField(n)); }
    SameHealthRecord(a.health, b.health);
    forall n: WarningsName ensures SameWarnings(a.warn, b.warn, n) { assert SameField(a, b, WarningsField(n)); }
    SameWarningsRecord(a.warn, b.warn);
    forall n: EventsName ensures SameEvents(a.events, b.events, n) { assert SameField(a, b, EventsField(n)); }
    SameEventsRecord(a.events, b.events);
  }

  lemma SameIdentityRecord(a: Identity, b: Identity)
    requires forall n :: SameIdentity(a, b, n)
    ensures a == b
  {
    assert SameIdentity(a, b, Name) && SameIdentity(a, b, Host) && SameIdentity(a, b, Port)
      && SameIdentity(a, b, PortVerified) && SameIdentity(a, b, DeviceID) && SameIdentity(a, b, BoxDeviceID)
      && SameIdentity(a, b, FriendlyName) && SameIdentity(a, b, Model) && SameIdentity(a, b, SerialNumber)
      && SameIdentity(a, b, Kind);
  }

  lemma SameAgentRecord(a: Agent, b: Agent)
    requires forall n :: SameAgent(a, b, n)
    ensures a == b
  {
    assert SameAgent(a, b, Version) && SameAgent(a, b, Build) && SameAgent(a, b, AgentBinarySha256)
      && SameAgent(a, b, AgentRunningSha256) && SameAgent(a, b, PresetRows) && SameAgent(a, b, LANAddrs)
      && SameAgent(a, b, WiredAddrs);
  }

  lemma SameCycleRecord(a: Cycle, b: Cycle)
    requires forall n :: SameCycle(a, b, n)
    ensures a == b
  {
    assert SameCycle(a, b, Offline) && SameCycle(a, b, OfflineSinceSec) && SameCycle(a, b, Unreachable)
      && SameCycle(a, b, STRNotRunning) && SameCycle(a, b, STRSilent) && SameCycle(a, b, OTAPending);
  }

  lemma SameHealthRecord(a: Health, b: Health)
    requires forall n :: SameHealth(a, b, n)
    ensures a == b
  {
    assert SameHealth(a, b, BoxHealth) && SameHealth(a, b, Internet) && SameHealth(a, b, InternetReason)
      && SameHealth(a, b, ArcadeAt);
  }

  lemma SameWarningsRecord(a: Warnings, b: Warnings)
    requires forall n :: SameWarnings(a, b, n)
    ensures a == b
  {
    assert SameWarnings(a, b, ConflictingMod) && SameWarnings(a, b, ForeignCloudURL)
      && SameWarnings(a, b, RivalCloudURL) && SameWarnings(a, b, SpeakerNameUnsafe)
      && SameWarnings(a, b, Storm1036) && SameWarnings(a, b, Storm1036SinceSec)
      && SameWarnings(a, b, RecallRefusal) && SameWarnings(a, b, RecallRefusalSinceSec)
      && SameWarnings(a, b, WLANCredsMissing);
  }

  lemma SameEventsRecord(a: Events, b: Events)
    requires forall n :: SameEvents(a, b, n)
    ensures a == b
  {
    assert SameEvents(a, b, GroupKeyError) && SameEvents(a, b, GroupKeyErrorKind)
      && SameEvents(a, b, WeakWifiDropout) && SameEvents(a, b, WeakWifiDropoutAgeSec)
      && SameEvents(a, b, HoldRefusedSource) && SameEvents(a, b, HoldRefusedSlot)
      && SameEvents(a, b, StaleFolderKeySlot);
  }
}
