/**
 The record merges of `desktop-app/discovery_merge.go`: one table with a rule
 per field and per merge, and the loop that applies a column of it.
 */
module FieldPolicy {
  import opened BoxRecords
  import opened Text

  datatype MergeSide = FromBase | FromOther

  /** The two columns of the table: the cache merge and the same-cycle merge. */
  datatype Column = Cache | SameKind

  datatype Rule =
    | KeepBase | PreferNonEmpty | PreferVerified | VerifiedReading | VerifiedID | VerifiedPort
    | Follows(key: Field) | RealName | RicherName | SpecificModel | StickySTR

  datatype FieldPolicy = FieldPolicy(cache: Rule, sameKind: Rule)

  /** The rule each merge applies to a field. */
  function Policy(f: Field): FieldPolicy {
    match f
    case IdentityField(Name) => FieldPolicy(KeepBase, PreferNonEmpty)
    case IdentityField(Host) => FieldPolicy(KeepBase, KeepBase)
    case IdentityField(Port) => FieldPolicy(VerifiedPort, VerifiedPort)
    case IdentityField(PortVerified) => FieldPolicy(Follows(IdentityField(Port)), Follows(IdentityField(Port)))
    case IdentityField(DeviceID) => FieldPolicy(PreferNonEmpty, VerifiedID)
    case IdentityField(BoxDeviceID) => FieldPolicy(PreferNonEmpty, PreferNonEmpty)
    case IdentityField(FriendlyName) => FieldPolicy(RealName, RicherName)
    case IdentityField(Model) => FieldPolicy(SpecificModel, SpecificModel)
    case AgentField(Version) => FieldPolicy(PreferNonEmpty, PreferVerified)
    case AgentField(Build) => FieldPolicy(PreferNonEmpty, PreferVerified)
    case AgentField(AgentBinarySha256) => FieldPolicy(PreferNonEmpty, PreferVerified)
    case AgentField(AgentRunningSha256) => FieldPolicy(PreferNonEmpty, PreferVerified)
    case AgentField(PresetRows) => FieldPolicy(Follows(AgentField(Version)), Follows(AgentField(Version)))
    case CycleField(Offline) => FieldPolicy(KeepBase, KeepBase)
    case CycleField(OfflineSinceSec) => FieldPolicy(KeepBase, KeepBase)
    case CycleField(Unreachable) => FieldPolicy(KeepBase, KeepBase)
    case CycleField(STRNotRunning) => FieldPolicy(KeepBase, KeepBase)
    case CycleField(STRSilent) => FieldPolicy(KeepBase, KeepBase)
    case CycleField(OTAPending) => FieldPolicy(KeepBase, KeepBase)
    case HealthField(BoxHealth) => FieldPolicy(PreferNonEmpty, VerifiedReading)
    case HealthField(Internet) => FieldPolicy(PreferNonEmpty, VerifiedReading)
    case HealthField(InternetReason) => FieldPolicy(Follows(HealthField(Internet)), Follows(HealthField(Internet)))
    case HealthField(ArcadeAt) => FieldPolicy(PreferNonEmpty, VerifiedReading)
    case WarningsField(ConflictingMod) => FieldPolicy(KeepBase, VerifiedReading)
    case WarningsField(ForeignCloudURL) => FieldPolicy(KeepBase, VerifiedReading)
    case WarningsField(RivalCloudURL) => FieldPolicy(KeepBase, PreferNonEmpty)
    case EventsField(GroupKeyError) => FieldPolicy(KeepBase, VerifiedReading)
    case EventsField(GroupKeyErrorKind) => FieldPolicy(KeepBase, Follows(EventsField(GroupKeyError)))
    case EventsField(WeakWifiDropout) => FieldPolicy(KeepBase, VerifiedReading)
    case EventsField(WeakWifiDropoutAgeSec) => FieldPolicy(KeepBase, Follows(EventsField(WeakWifiDropout)))
    case EventsField(HoldRefusedSource) => FieldPolicy(KeepBase, VerifiedReading)
    case EventsField(HoldRefusedSlot) => FieldPolicy(KeepBase, Follows(EventsField(HoldRefusedSource)))
    case EventsField(StaleFolderKeySlot) => FieldPolicy(KeepBase, VerifiedReading)
    case WarningsField(SpeakerNameUnsafe) => FieldPolicy(KeepBase, VerifiedReading)
    case WarningsField(Storm1036) => FieldPolicy(KeepBase, VerifiedReading)
    case WarningsField(Storm1036SinceSec) => FieldPolicy(KeepBase, Follows(WarningsField(Storm1036)))
    case WarningsField(RecallRefusal) => FieldPolicy(KeepBase, VerifiedReading)
    case WarningsField(RecallRefusalSinceSec) => FieldPolicy(KeepBase, Follows(WarningsField(RecallRefusal)))
    case WarningsField(WLANCredsMissing) => FieldPolicy(KeepBase, VerifiedReading)
    case AgentField(LANAddrs) => FieldPolicy(PreferNonEmpty, PreferVerified)
    case AgentField(WiredAddrs) => FieldPolicy(PreferNonEmpty, PreferVerified)
    case IdentityField(SerialNumber) => FieldPolicy(PreferNonEmpty, PreferNonEmpty)
    case IdentityField(Kind) => FieldPolicy(StickySTR, KeepBase)
  }

  const ROWS: nat := 43

  /** The rows of the table in their order. */
  function FieldAt(i: nat): Field
    requires i < ROWS
  {
    match i
    case 0 => IdentityField(Name)
    case 1 => IdentityField(Host)
    case 2 => IdentityField(Port)
    case 3 => IdentityField(PortVerified)
    case 4 => IdentityField(DeviceID)
    case 5 => IdentityField(BoxDeviceID)
    case 6 => IdentityField(FriendlyName)
    case 7 => IdentityField(Model)
    case 8 => AgentField(Version)
    case 9 => AgentField(Build)
    case 10 => AgentField(AgentBinarySha256)
    case 11 => AgentField(AgentRunningSha256)
    case 12 => AgentField(PresetRows)
    case 13 => CycleField(Offline)
    case 14 => CycleField(OfflineSinceSec)
    case 15 => CycleField(Unreachable)
    case 16 => CycleField(STRNotRunning)
    case 17 => CycleField(STRSilent)
    case 18 => CycleField(OTAPending)
    case 19 => HealthField(BoxHealth)
    case 20 => HealthField(Internet)
    case 21 => HealthField(InternetReason)
    case 22 => HealthField(ArcadeAt)
    case 23 => WarningsField(ConflictingMod)
    case 24 => WarningsField(ForeignCloudURL)
    case 25 => WarningsField(RivalCloudURL)
    case 26 => EventsField(GroupKeyError)
    case 27 => EventsField(GroupKeyErrorKind)
    case 28 => EventsField(WeakWifiDropout)
    case 29 => EventsField(WeakWifiDropoutAgeSec)
    case 30 => EventsField(HoldRefusedSource)
    case 31 => EventsField(HoldRefusedSlot)
    case 32 => EventsField(StaleFolderKeySlot)
    case 33 => WarningsField(SpeakerNameUnsafe)
    case 34 => WarningsField(Storm1036)
    case 35 => WarningsField(Storm1036SinceSec)
    case 36 => WarningsField(RecallRefusal)
    case 37 => WarningsField(RecallRefusalSinceSec)
    case 38 => WarningsField(WLANCredsMissing)
    case 39 => AgentField(LANAddrs)
    case 40 => AgentField(WiredAddrs)
    case 41 => IdentityField(SerialNumber)
    case _ => IdentityField(Kind)
  }

  /** The place of a field's row in the table. */
  function Rank(f: Field): nat {
    match f
    case IdentityField(Name) => 0
    case IdentityField(Host) => 1
    case IdentityField(Port) => 2
    case IdentityField(PortVerified) => 3
    case IdentityField(DeviceID) => 4
    case IdentityField(BoxDeviceID) => 5
    case IdentityField(FriendlyName) => 6
    case IdentityField(Model) => 7
    case AgentField(Version) => 8
    case AgentField(Build) => 9
    case AgentField(AgentBinarySha256) => 10
    case AgentField(AgentRunningSha256) => 11
    case AgentField(PresetRows) => 12
    case CycleField(Offline) => 13
    case CycleField(OfflineSinceSec) => 14
    case CycleField(Unreachable) => 15
    case CycleField(STRNotRunning) => 16
    case CycleField(STRSilent) => 17
    case CycleField(OTAPending) => 18
    case HealthField(BoxHealth) => 19
    case HealthField(Internet) => 20
    case HealthField(InternetReason) => 21
    case HealthField(ArcadeAt) => 22
    case WarningsField(ConflictingMod) => 23
    case WarningsField(ForeignCloudURL) => 24
    case WarningsField(RivalCloudURL) => 25
    case EventsField(GroupKeyError) => 26
    case EventsField(GroupKeyErrorKind) => 27
    case EventsField(WeakWifiDropout) => 28
    case EventsField(WeakWifiDropoutAgeSec) => 29
    case EventsField(HoldRefusedSource) => 30
    case EventsField(HoldRefusedSlot) => 31
    case EventsField(StaleFolderKeySlot) => 32
    case WarningsField(SpeakerNameUnsafe) => 33
    case WarningsField(Storm1036) => 34
    case WarningsField(Storm1036SinceSec) => 35
    case WarningsField(RecallRefusal) => 36
    case WarningsField(RecallRefusalSinceSec) => 37
    case WarningsField(WLANCredsMissing) => 38
    case AgentField(LANAddrs) => 39
    case AgentField(WiredAddrs) => 40
    case IdentityField(SerialNumber) => 41
    case IdentityField(Kind) => 42
  }

  function RuleOf(f: Field, col: Column): Rule {
    match col
    case Cache => Policy(f).cache
    case SameKind => Policy(f).sameKind
  }

  /** Every field has exactly one row. */
  lemma RowOfField(f: Field)
    ensures Rank(f) < ROWS && FieldAt(Rank(f)) == f
  {
  }

  lemma FieldOfRow(i: nat)
    requires i < ROWS
    ensures Rank(FieldAt(i)) == i
  {
  }

  predicate IsGenericBoxName(name: string) {
    var n := TrimSpace(name);
    n == "" || "Bose SoundTouch " <= n
  }

  /** Nothing but white space, or what the factory set: after any white space "Bose SoundTouch " and something. */
  ghost predicate NoRealName(name: string) {
    || AllBlank(name)
    || exists i, j :: 0 <= i && i + 16 <= j < |name| && AllBlank(name[..i]) && name[i..i + 16] == "Bose SoundTouch "
                      && !Blank(name[j])
  }

  lemma GenericNameIs(name: string)
    ensures IsGenericBoxName(name) <==> NoRealName(name)
  {
    var n := TrimSpace(name);
    TrimSpaceIs(name, n);
    hide TrimSpace, NoRealName;
    var i, j :| TrimmedAt(n, name, i, j);
    FactoryNameIs(name, n, i, j);
  }

  lemma FactoryNameIs(name: string, n: string, i: int, j: int)
    requires TrimmedAt(n, name, i, j)
    ensures n == "" || "Bose SoundTouch " <= n <==> NoRealName(name)
  {
    var factory := "Bose SoundTouch ";
    assert AllBlank(name[..i]);
    if factory <= n {
      assert name[i..i + 16] == n[..16] && n[15] == ' ';
      assert !Blank(name[j - 1]) && i + 16 <= j - 1;
    }
    if k, m :| 0 <= k && k + 16 <= m < |name| && AllBlank(name[..k]) && name[k..k + 16] == factory && !Blank(name[m]) {
      assert name[k] == name[k..k + 16][0] == 'B';
      assert i <= k && m < j;
      forall x | 0 <= x < k ensures Blank(name[x]) { assert name[..k][x] == name[x]; }
      assert n[..16] == name[i..i + 16];
    }
  }

  function PickBoxName(a: string, b: string): string {
    var ag, bg := IsGenericBoxName(a), IsGenericBoxName(b);
    if ag && !bg then b
    else if bg && !ag then a
    else if |b| > |a| then b
    else a
  }

  predicate IsGenericModel(model: string) {
    model == "" || model == "SoundTouch"
  }

  function PickModelName(a: string, b: string): string {
    if IsGenericModel(a) && !IsGenericModel(b) then b else a
  }

  /** The side a rule other than a follower takes field `f` from. */
  function PickOwn(rule: Rule, base: BoxInfo, other: BoxInfo, f: Field): MergeSide
    requires !rule.Follows?
  {
    var baseV, otherV := base.id.portVerified, other.id.portVerified;
    var nonEmpty := if IsZero(base, f) then FromOther else FromBase;
    match rule
    case KeepBase => FromBase
    case PreferNonEmpty => nonEmpty
    case PreferVerified =>
      if otherV && !baseV then if IsZero(other, f) then FromBase else FromOther
      else if baseV && !otherV then FromBase
      else nonEmpty
    case VerifiedReading =>
      if baseV then FromBase else if otherV then FromOther else nonEmpty
    case VerifiedID =>
      if baseV && !IsZero(base, f) then FromBase
      else if otherV && !IsZero(other, f) then FromOther
      else nonEmpty
    case VerifiedPort =>
      if otherV && !baseV && other.id.port != 0 then FromOther else FromBase
    case RealName =>
      if IsGenericBoxName(base.id.friendlyName) && !IsGenericBoxName(other.id.friendlyName)
      then FromOther else FromBase
    case RicherName =>
      if PickBoxName(base.id.friendlyName, other.id.friendlyName) == other.id.friendlyName
         && base.id.friendlyName != other.id.friendlyName
      then FromOther else FromBase
    case SpecificModel =>
      if PickModelName(base.id.model, other.id.model) == other.id.model && base.id.model != other.id.model
      then FromOther else FromBase
    case StickySTR => if other.id.kind == STR then FromOther else FromBase
  }

  /** A follower stands below the field it follows. */
  lemma FollowerBelowKey(f: Field, col: Column)
    requires RuleOf(f, col).Follows?
    ensures Rank(RuleOf(f, col).key) < Rank(f)
  {
  }

  /** The side field `f` is taken from, a follower's key resolved through the table. */
  function SideOf(base: BoxInfo, other: BoxInfo, f: Field, col: Column): MergeSide
    decreases Rank(f)
  {
    match RuleOf(f, col)
    case Follows(key) => FollowerBelowKey(f, col); SideOf(base, other, key, col)
    case rule => PickOwn(rule, base, other, f)
  }

  function MergedIdentity(base: BoxInfo, other: BoxInfo, col: Column): Identity {
    Identity(
      if SideOf(base, other, IdentityField(Name), col) == FromOther then other.id.name else base.id.name,
      if SideOf(base, other, IdentityField(Host), col) == FromOther then other.id.host else base.id.host,
      if SideOf(base, other, IdentityField(Port), col) == FromOther then other.id.port else base.id.port,
      if SideOf(base, other, IdentityField(PortVerified), col) == FromOther then other.id.portVerified
      else base.id.portVerified,
      if SideOf(base, other, IdentityField(DeviceID), col) == FromOther then other.id.deviceID else base.id.deviceID,
      if SideOf(base, other, IdentityField(BoxDeviceID), col) == FromOther then other.id.boxDeviceID
      else base.id.boxDeviceID,
      if SideOf(base, other, IdentityField(FriendlyName), col) == FromOther then other.id.friendlyName
      else base.id.friendlyName,
      if SideOf(base, other, IdentityField(Model), col) == FromOther then other.id.model else base.id.model,
      if SideOf(base, other, IdentityField(SerialNumber), col) == FromOther then other.id.serialNumber
      else base.id.serialNumber,
      if SideOf(base, other, IdentityField(Kind), col) == FromOther then other.id.kind else base.id.kind
    )
  }

  function MergedAgent(base: BoxInfo, other: BoxInfo, col: Column): Agent {
    Agent(
      if SideOf(base, other, AgentField(Version), col) == FromOther then other.agent.version else base.agent.version,
      if SideOf(base, other, AgentField(Build), col) == FromOther then other.agent.build else base.agent.build,
      if SideOf(base, other, AgentField(AgentBinarySha256), col) == FromOther then other.agent.agentBinarySha256
      else base.agent.agentBinarySha256,
      if SideOf(base, other, AgentField(AgentRunningSha256), col) == FromOther then other.agent.agentRunningSha256
      else base.agent.agentRunningSha256,
      if SideOf(base, other, AgentField(PresetRows), col) == FromOther then other.agent.presetRows
      else base.agent.presetRows,
      if SideOf(base, other, AgentField(LANAddrs), col) == FromOther then other.agent.lanAddrs else base.agent.lanAddrs,
      if SideOf(base, other, AgentField(WiredAddrs), col) == FromOther then other.agent.wiredAddrs
      else base.agent.wiredAddrs
    )
  }

  function MergedCycle(base: BoxInfo, other: BoxInfo, col: Column): Cycle {
    Cycle(
      if SideOf(base, other, CycleField(Offline), col) == FromOther then other.cycle.offline else base.cycle.offline,
      if SideOf(base, other, CycleField(OfflineSinceSec), col) == FromOther then other.cycle.offlineSinceSec
      else base.cycle.offlineSinceSec,
      if SideOf(base, other, CycleField(Unreachable), col) == FromOther then other.cycle.unreachable
      else base.cycle.unreachable,
      if SideOf(base, other, CycleField(STRNotRunning), col) == FromOther then other.cycle.strNotRunning
      else base.cycle.strNotRunning,
      if SideOf(base, other, CycleField(STRSilent), col) == FromOther then other.cycle.strSilent
      else base.cycle.strSilent,
      if SideOf(base, other, CycleField(OTAPending), col) == FromOther then other.cycle.otaPending
      else base.cycle.otaPending
    )
  }

  function MergedHealth(base: BoxInfo, other: BoxInfo, col: Column): Health {
    Health(
      if SideOf(base, other, HealthField(BoxHealth), col) == FromOther then other.health.boxHealth
      else base.health.boxHealth,
      if SideOf(base, other, HealthField(Internet), col) == FromOther then other.health.internet
      else base.health.internet,
      if SideOf(base, other, HealthField(InternetReason), col) == FromOther then other.health.internetReason
      else base.health.internetReason,
      if SideOf(base, other, HealthField(ArcadeAt), col) == FromOther then other.health.arcadeAt
      else base.health.arcadeAt
    )
  }

  function MergedWarnings(base: BoxInfo, other: BoxInfo, col: Column): Warnings {
    Warnings(
      if SideOf(base, other, WarningsField(ConflictingMod), col) == FromOther then other.warn.conflictingMod
      else base.warn.conflictingMod,
      if SideOf(base, other, WarningsField(ForeignCloudURL), col) == FromOther then other.warn.foreignCloudURL
      else base.warn.foreignCloudURL,
      if SideOf(base, other, WarningsField(RivalCloudURL), col) == FromOther then other.warn.rivalCloudURL
      else base.warn.rivalCloudURL,
      if SideOf(base, other, WarningsField(SpeakerNameUnsafe), col) == FromOther then other.warn.speakerNameUnsafe
      else base.warn.speakerNameUnsafe,
      if SideOf(base, other, WarningsField(Storm1036), col) == FromOther then other.warn.storm1036
      else base.warn.storm1036,
      if SideOf(base, other, WarningsField(Storm1036SinceSec), col) == FromOther then other.warn.storm1036SinceSec
      else base.warn.storm1036SinceSec,
      if SideOf(base, other, WarningsField(RecallRefusal), col) == FromOther then other.warn.recallRefusal
      else base.warn.recallRefusal,
      if SideOf(base, other, WarningsField(RecallRefusalSinceSec), col) == FromOther
         then other.warn.recallRefusalSinceSec
      else base.warn.recallRefusalSinceSec,
      if SideOf(base, other, WarningsField(WLANCredsMissing), col) == FromOther then other.warn.wlanCredsMissing
      else base.warn.wlanCredsMissing
    )
  }

  function MergedEvents(base: BoxInfo, other: BoxInfo, col: Column): Events {
    Events(
      if SideOf(base, other, EventsField(GroupKeyError), col) == FromOther then other.events.groupKeyError
      else base.events.groupKeyError,
      if SideOf(base, other, EventsField(GroupKeyErrorKind), col) == FromOther then other.events.groupKeyErrorKind
      else base.events.groupKeyErrorKind,
      if SideOf(base, other, EventsField(WeakWifiDropout), col) == FromOther then other.events.weakWifiDropout
      else base.events.weakWifiDropout,
      if SideOf(base, other, EventsField(WeakWifiDropoutAgeSec), col) == FromOther
         then other.events.weakWifiDropoutAgeSec
      else base.events.weakWifiDropoutAgeSec,
      if SideOf(base, other, EventsField(HoldRefusedSource), col) == FromOther then other.events.holdRefusedSource
      else base.events.holdRefusedSource,
      if SideOf(base, other, EventsField(HoldRefusedSlot), col) == FromOther then other.events.holdRefusedSlot
      else base.events.holdRefusedSlot,
      if SideOf(base, other, EventsField(StaleFolderKeySlot), col) == FromOther then other.events.staleFolderKeySlot
      else base.events.staleFolderKeySlot
    )
  }

  /** The record that takes each field from the side its rule names. */
  function Merged(base: BoxInfo, other: BoxInfo, col: Column): BoxInfo {
    BoxInfo(
      MergedIdentity(base, other, col),
      MergedAgent(base, other, col),
      MergedCycle(base, other, col),
      MergedHealth(base, other, col),
      MergedWarnings(base, other, col),
      MergedEvents(base, other, col)
    )
  }

  /** Each field of the merged record is the one of the side its rule names. */
  lemma MergedField(base: BoxInfo, other: BoxInfo, col: Column, f: Field)
    ensures SameField(Merged(base, other, col), if SideOf(base, other, f, col) == FromOther then other else base, f)
  {
    hide SideOf;
    match f
    case IdentityField(n) => MergedIdentityField(base, other, col, n);
    case AgentField(n) => MergedAgentField(base, other, col, n);
    case CycleField(n) => MergedCycleField(base, other, col, n);
    case HealthField(n) => MergedHealthField(base, other, col, n);
    case WarningsField(n) => MergedWarningsField(base, other, col, n);
    case EventsField(n) => MergedEventsField(base, other, col, n);
  }

  lemma MergedIdentityField(base: BoxInfo, other: BoxInfo, col: Column, n: IdentityName)
    ensures SameIdentity(MergedIdentity(base, other, col),
                if SideOf(base, other, IdentityField(n), col) == FromOther then other.id else base.id, n)
  {
    hide SideOf;
  }

  lemma MergedAgentField(base: BoxInfo, other: BoxInfo, col: Column, n: AgentName)
    ensures SameAgent(MergedAgent(base, other, col),
                if SideOf(base, other, AgentField(n), col) == FromOther then other.agent else base.agent, n)
  {
    hide SideOf;
  }

  lemma MergedCycleField(base: BoxInfo, other: BoxInfo, col: Column, n: CycleName)
    ensures SameCycle(MergedCycle(base, other, col),
                if SideOf(base, other, CycleField(n), col) == FromOther then other.cycle else base.cycle, n)
  {
    hide SideOf;
  }

  lemma MergedHealthField(base: BoxInfo, other: BoxInfo, col: Column, n: HealthName)
    ensures SameHealth(MergedHealth(base, other, col),
                if SideOf(base, other, HealthField(n), col) == FromOther then other.health else base.health, n)
  {
    hide SideOf;
  }

  lemma MergedWarningsField(base: BoxInfo, other: BoxInfo, col: Column, n: WarningsName)
    ensures SameWarnings(MergedWarnings(base, other, col),
                if SideOf(base, other, WarningsField(n), col) == FromOther then other.warn else base.warn, n)
  {
    hide SideOf;
  }

  lemma MergedEventsField(base: BoxInfo, other: BoxInfo, col: Column, n: EventsName)
    ensures SameEvents(MergedEvents(base, other, col),
                if SideOf(base, other, EventsField(n), col) == FromOther then other.events else base.events, n)
  {
    hide SideOf;
  }

  /** One row of the loop: what `SideOf` says of a row once the rows above it are decided. */
  lemma SideOfRow(base: BoxInfo, other: BoxInfo, f: Field, col: Column)
    ensures RuleOf(f, col).Follows? ==> Rank(RuleOf(f, col).key) < Rank(f)
    ensures SideOf(base, other, f, col) ==
            if RuleOf(f, col).Follows? then SideOf(base, other, RuleOf(f, col).key, col)
            else PickOwn(RuleOf(f, col), base, other, f)
  {
    hide PickOwn;
    if RuleOf(f, col).Follows? { FollowerBelowKey(f, col); }
  }

  /** The loop over the table: `out` starts as the base and takes field after field. */
  method MergeByPolicy(base: BoxInfo, other: BoxInfo, col: Column) returns (out: BoxInfo)
    ensures out == Merged(base, other, col)
  {
    hide *;
    out := base;
    var picked: map<Field, MergeSide> := map[];
    forall f ensures SameField(base, base, f) { SameFieldSelf(base, f); }
    for i := 0 to ROWS
      invariant forall f :: f in picked <==> Rank(f) < i
      invariant forall f :: f in picked ==> picked[f] == SideOf(base, other, f, col)
      invariant forall f :: SameField(out, if f in picked && picked[f] == FromOther then other else base, f)
    {
      var f := FieldAt(i);
      FieldOfRow(i);
      SideOfRow(base, other, f, col);
      var rule := RuleOf(f, col);
      var side := if rule.Follows? then picked[rule.key] else PickOwn(rule, base, other, f);
      forall g | Rank(g) == i ensures g == f { RowOfField(g); }
      ghost var before := out;
      if side == FromOther {
        out := CopyField(out, other, f);
        forall g ensures SameField(out, if g == f || (g in picked && picked[g] == FromOther) then other else base, g) {
          CopyFieldEffect(before, other, f, g);
          if g != f { SameFieldTrans(out, before, if g in picked && picked[g] == FromOther then other else base, g); }
        }
      }
      picked := picked[f := side];
    }
    forall f ensures SameField(out, Merged(base, other, col), f) {
      RowOfField(f);
      MergedField(base, other, col, f);
      var from := if SideOf(base, other, f, col) == FromOther then other else base;
      SameFieldTrans(out, from, Merged(base, other, col), f);
    }
    SameRecord(out, Merged(base, other, col));
  }

  /** Merging this cycle's record `cur` with the cached one `prev`. */
  function MergeBoxInfo(prev: BoxInfo, cur: BoxInfo): BoxInfo {
    var out := Merged(cur, prev, Cache);
    if !prev.cycle.strNotRunning then out
    else
      var lifted := if out.id.kind == STR && !out.id.portVerified then DegradeToSTRNotRunning(out) else out;
      if lifted.id.kind == Stock then lifted.(cycle := lifted.cycle.(strNotRunning := true)) else lifted
  }

  /** Merging two same-cycle records of the same kind. */
  function MergeSameKind(a: BoxInfo, b: BoxInfo): BoxInfo {
    Merged(a, b, SameKind)
  }

  /** The stock record a speaker becomes once its agent is gone. */
  function DegradeToSTRNotRunning(b: BoxInfo): BoxInfo {
    b.(
      id := b.id.(kind := Stock, port := 8090, portVerified := false),
      agent := b.agent.(version := "", build := "", presetRows := ""),
      cycle := b.cycle.(otaPending := false, strSilent := false, strNotRunning := true),
      health := b.health.(boxHealth := "", internet := "", internetReason := ""),
      warn := b.warn.(conflictingMod := "", foreignCloudURL := "", wlanCredsMissing := false,
                      speakerNameUnsafe := false, storm1036 := false, storm1036SinceSec := 0,
                      recallRefusal := false, recallRefusalSinceSec := 0),
      events := b.events.(weakWifiDropout := "", weakWifiDropoutAgeSec := 0))
  }

  /** The cache column of the identity group, row by row. */
  lemma CacheIdentity(cur: BoxInfo, prev: BoxInfo)
    ensures var takesPort := prev.id.portVerified && !cur.id.portVerified && prev.id.port != 0;
            var takesName := IsGenericBoxName(cur.id.friendlyName) && !IsGenericBoxName(prev.id.friendlyName);
            var takesModel := IsGenericModel(cur.id.model) && !IsGenericModel(prev.id.model);
            MergedIdentity(cur, prev, Cache) == Identity(
              cur.id.name,
              cur.id.host,
              if takesPort then prev.id.port else cur.id.port,
              if takesPort then true else cur.id.portVerified,
              if cur.id.deviceID == "" then prev.id.deviceID else cur.id.deviceID,
              if cur.id.boxDeviceID == "" then prev.id.boxDeviceID else cur.id.boxDeviceID,
              if takesName then prev.id.friendlyName else cur.id.friendlyName,
              if takesModel then prev.id.model else cur.id.model,
              if cur.id.serialNumber == "" then prev.id.serialNumber else cur.id.serialNumber,
              if prev.id.kind == STR then STR else cur.id.kind)
  {
    hide IsGenericBoxName;
  }

  /** The cache column of the agent group: a version travels with its row count. */
  lemma CacheAgent(cur: BoxInfo, prev: BoxInfo)
    ensures var c, p := cur.agent, prev.agent;
            MergedAgent(cur, prev, Cache) == Agent(
              if c.version == "" then p.version else c.version,
              if c.build == "" then p.build else c.build,
              if c.agentBinarySha256 == "" then p.agentBinarySha256 else c.agentBinarySha256,
              if c.agentRunningSha256 == "" then p.agentRunningSha256 else c.agentRunningSha256,
              if c.version == "" then p.presetRows else c.presetRows,
              if c.lanAddrs == "" then p.lanAddrs else c.lanAddrs,
              if c.wiredAddrs == "" then p.wiredAddrs else c.wiredAddrs)
  {
  }

  /** The cache column of the agent's verdicts: the reason travels with the verdict. */
  lemma CacheHealth(cur: BoxInfo, prev: BoxInfo)
    ensures var c, p := cur.health, prev.health;
            MergedHealth(cur, prev, Cache) == Health(
              if c.boxHealth == "" then p.boxHealth else c.boxHealth,
              if c.internet == "" then p.internet else c.internet,
              if c.internet == "" then p.internetReason else c.internetReason,
              if c.arcadeAt == "" then p.arcadeAt else c.arcadeAt)
  {
  }

  /** The cache never carries a per-cycle mark, a warning or an event over. */
  lemma CacheLeavesMarks(cur: BoxInfo, prev: BoxInfo)
    ensures MergedCycle(cur, prev, Cache) == cur.cycle
    ensures MergedWarnings(cur, prev, Cache) == cur.warn
    ensures MergedEvents(cur, prev, Cache) == cur.events
  {
    CacheLeavesWarnings(cur, prev);
    CacheLeavesEvents(cur, prev);
    hide MergedWarnings, MergedEvents;
  }

  lemma CacheLeavesWarnings(cur: BoxInfo, prev: BoxInfo)
    ensures MergedWarnings(cur, prev, Cache) == cur.warn
  {
  }

  lemma CacheLeavesEvents(cur: BoxInfo, prev: BoxInfo)
    ensures MergedEvents(cur, prev, Cache) == cur.events
  {
  }

  /** What a cache merge makes of the identity: the address is this cycle's, and an id, a name, a
      model or a serial number is kept where this cycle has none. */
  lemma CacheMergeIdentity(prev: BoxInfo, cur: BoxInfo)
    ensures var p, c, out := prev.id, cur.id, MergeBoxInfo(prev, cur).id;
            && out.host == c.host
            && out.deviceID == (if c.deviceID != "" then c.deviceID else p.deviceID)
            && out.boxDeviceID == (if c.boxDeviceID != "" then c.boxDeviceID else p.boxDeviceID)
            && out.serialNumber == (if c.serialNumber != "" then c.serialNumber else p.serialNumber)
            && out.friendlyName == (if IsGenericBoxName(c.friendlyName) && !IsGenericBoxName(p.friendlyName)
                                    then p.friendlyName else c.friendlyName)
            && out.model == (if IsGenericModel(c.model) && !IsGenericModel(p.model) then p.model else c.model)
  {
    CacheIdentity(cur, prev);
    hide MergedIdentity, MergedAgent, MergedCycle, MergedHealth, MergedWarnings, MergedEvents, IsGenericBoxName,
         IsGenericModel;
  }

  /**
   "STR not running" is lifted by a cache merge only when the merged record is
   an STR one on a verified port; any other merge with a marked record is a
   marked stock record again.
   */
  lemma CacheMergeKind(prev: BoxInfo, cur: BoxInfo)
    ensures var kind := if prev.id.kind == STR then STR else cur.id.kind;
            var verified := cur.id.portVerified || (prev.id.portVerified && prev.id.port != 0);
            var out := MergeBoxInfo(prev, cur);
            && out.id.kind == (if prev.cycle.strNotRunning && !verified then Stock else kind)
            && out.cycle.strNotRunning
               == (if prev.cycle.strNotRunning && out.id.kind == Stock then true else cur.cycle.strNotRunning)
            && (out.id.portVerified ==> verified)
            && (out.id.kind == STR ==> out.id.portVerified == verified)
  {
    CacheIdentity(cur, prev);
    CacheLeavesMarks(cur, prev);
    hide MergedIdentity, MergedAgent, MergedCycle, MergedHealth, MergedWarnings, MergedEvents, IsGenericBoxName,
         IsGenericModel;
  }

  /** The cached record says "STR not running", the merge would make an STR one of it, and no port is verified:
      the merge degrades it again, and with that clears the marks of a running agent. */
  predicate DegradesMerge(prev: BoxInfo, cur: BoxInfo) {
    && prev.cycle.strNotRunning && (prev.id.kind == STR || cur.id.kind == STR)
    && !cur.id.portVerified && !(prev.id.portVerified && prev.id.port != 0)
  }

  /** The marks of a cache merge are this cycle's; only "STR not running" can be added, and the
      degrade that adds it clears the two marks of a running agent. */
  lemma CacheMergeMarks(prev: BoxInfo, cur: BoxInfo)
    ensures var out := MergeBoxInfo(prev, cur).cycle;
            && out.offline == cur.cycle.offline
            && out.offlineSinceSec == cur.cycle.offlineSinceSec
            && out.unreachable == cur.cycle.unreachable
            && (out.otaPending <==> cur.cycle.otaPending && !DegradesMerge(prev, cur))
            && (out.strSilent <==> cur.cycle.strSilent && !DegradesMerge(prev, cur))
    ensures MergeBoxInfo(prev, cur).agent.version in
            {"", if cur.agent.version == "" then prev.agent.version else cur.agent.version}
  {
    CacheIdentity(cur, prev);
    CacheAgent(cur, prev);
    CacheLeavesMarks(cur, prev);
    hide MergedIdentity, MergedAgent, MergedCycle, MergedHealth, MergedWarnings, MergedEvents, IsGenericBoxName,
         IsGenericModel;
  }

  /** The fields a degrade rewrites. */
  predicate DegradeRewrites(f: Field) {
    match f
    case IdentityField(n) => n in {Kind, Port, PortVerified}
    case AgentField(n) => n in {Version, Build, PresetRows}
    case CycleField(n) => n in {STRNotRunning, STRSilent, OTAPending}
    case HealthField(n) => n in {BoxHealth, Internet, InternetReason}
    case WarningsField(n) => n != RivalCloudURL
    case EventsField(n) => n in {WeakWifiDropout, WeakWifiDropoutAgeSec}
  }

  /** A record with a reading in every field. */
  const FULL_BOX := BoxInfo(
    Identity("n", "h", 8888, true, "i", "j", "f", "m", "s", STR),
    Agent("v", "b", "x", "y", "r", "a", "w"),
    Cycle(true, 1, true, false, true, true),
    Health("h", "i", "r", "a"),
    Warnings("c", "f", "r", true, true, 1, true, 1, true),
    Events("g", "k", "w", 1, "s", "t", "f"))

  /**
   What a degrade makes of a record, field by field: a stock one on the stock
   port with the mark, nothing in the other fields it rewrites, and every other
   field as it was. The recent key refusals, the agent's hashes and the time of
   the last display game are among those, though only an agent reports them.
   */
  lemma DegradedRecord(b: BoxInfo)
    ensures var d := DegradeToSTRNotRunning(b);
            && (forall f :: !DegradeRewrites(f) ==> SameField(b, d, f))
            && (forall f :: DegradeRewrites(f)
                            && f !in {IdentityField(Kind), IdentityField(Port), CycleField(STRNotRunning)}
                            ==> IsZero(d, f))
            && d.id.kind == Stock && d.id.port == 8090 && d.cycle.strNotRunning
    ensures DegradeToSTRNotRunning(DegradeToSTRNotRunning(b)) == DegradeToSTRNotRunning(b)
  {
  }

  /** Those are the fields it rewrites, and no others. */
  lemma DegradeRewritesExactly(f: Field)
    ensures DegradeRewrites(f) <==> exists b :: !SameField(b, DegradeToSTRNotRunning(b), f)
  {
    if DegradeRewrites(f) {
      assert !SameField(FULL_BOX, DegradeToSTRNotRunning(FULL_BOX), f);
    } else {
      forall b ensures SameField(b, DegradeToSTRNotRunning(b), f) { DegradedRecord(b); }
    }
  }
}
