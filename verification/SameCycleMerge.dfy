/**
 The merge of two sightings of one cycle, a live probe and an announcement:
 which fields come out the same in either order, and that a reason always
 comes from the record its verdict came from.
 */
module SameCycleMerge {
  import opened BoxRecords
  import opened FieldPolicy
  import opened Text

  /** The two orders pick the same record for `f`, or two that agree on it. */
  lemma TwoOrders(a: BoxInfo, b: BoxInfo, f: Field)
    ensures SameField(MergeSameKind(a, b), MergeSameKind(b, a), f) <==>
            (SideOf(a, b, f, SameKind) != SideOf(b, a, f, SameKind) || SameField(a, b, f))
  {
    hide Merged, SideOf, SameField;
    var x := if SideOf(a, b, f, SameKind) == FromOther then b else a;
    var y := if SideOf(b, a, f, SameKind) == FromOther then a else b;
    MergedField(a, b, SameKind, f);
    MergedField(b, a, SameKind, f);
    SameFieldBoth(MergeSameKind(a, b), x, MergeSameKind(b, a), y, f);
    SameFieldSelf(x, f);
    SameFieldFlip(a, b, f);
  }

  lemma SameFieldBoth(a: BoxInfo, x: BoxInfo, b: BoxInfo, y: BoxInfo, f: Field)
    requires SameField(a, x, f) && SameField(b, y, f)
    ensures SameField(a, b, f) <==> SameField(x, y, f)
  {
  }

  lemma SameFieldFlip(a: BoxInfo, b: BoxInfo, f: Field)
    ensures SameField(a, b, f) <==> SameField(b, a, f)
  {
  }

  /** Two empty fields agree, an empty and a full one do not. */
  lemma ZeroFields(a: BoxInfo, b: BoxInfo, f: Field)
    ensures IsZero(a, f) && IsZero(b, f) ==> SameField(a, b, f)
    ensures IsZero(a, f) != IsZero(b, f) ==> !SameField(a, b, f)
  {
  }

  /** When a verified record `v` and an unverified one `u` give the same field `f` in either order. */
  ghost predicate Commutes(v: BoxInfo, u: BoxInfo, f: Field) {
    match RuleOf(f, SameKind)
    case VerifiedReading => true
    case VerifiedID => true
    case VerifiedPort => v.id.port != 0 || u.id.port == 0
    case PreferVerified => !IsZero(v, f) || IsZero(u, f)
    case PreferNonEmpty => IsZero(v, f) || IsZero(u, f) || SameField(v, u, f)
    case RicherName =>
      || v.id.friendlyName == u.id.friendlyName
      || IsGenericBoxName(v.id.friendlyName) != IsGenericBoxName(u.id.friendlyName)
      || |v.id.friendlyName| != |u.id.friendlyName|
    case SpecificModel => IsGenericModel(v.id.model) != IsGenericModel(u.id.model) || v.id.model == u.id.model
    case Follows(key) =>
      (match RuleOf(key, SameKind)
       case VerifiedPort => v.id.port != 0
       case PreferVerified => !IsZero(v, key) || SameField(v, u, f)
       case _ => true)
    case _ => SameField(v, u, f)
  }

  /** The sides the two orders take a field from that follows no other. */
  lemma OwnSides(v: BoxInfo, u: BoxInfo, f: Field)
    requires v.id.portVerified && !u.id.portVerified && !RuleOf(f, SameKind).Follows?
    ensures var vu, uv := SideOf(v, u, f, SameKind), SideOf(u, v, f, SameKind);
            match RuleOf(f, SameKind)
            case VerifiedReading => vu == FromBase && uv == FromOther
            case VerifiedID => vu != uv || IsZero(v, f) == IsZero(u, f) == true
            case VerifiedPort => vu == FromBase && (uv == FromOther <==> v.id.port != 0)
            case PreferVerified => vu == FromBase && (uv == FromOther <==> !IsZero(v, f))
            case PreferNonEmpty => (vu == FromBase <==> !IsZero(v, f)) && (uv == FromBase <==> !IsZero(u, f))
            case RicherName => vu == PickOwn(RicherName, v, u, f) && uv == PickOwn(RicherName, u, v, f)
            case SpecificModel => vu == PickOwn(SpecificModel, v, u, f) && uv == PickOwn(SpecificModel, u, v, f)
            case _ => vu == FromBase && uv == FromBase
  {
    hide IsZero, IsGenericBoxName, IsGenericModel;
    SideOfRow(v, u, f, SameKind);
    SideOfRow(u, v, f, SameKind);
    OnlyStrategies(f);
  }

  /** The rules the same-cycle column of the table uses. */
  lemma OnlyStrategies(f: Field)
    ensures !RuleOf(f, SameKind).StickySTR? && !RuleOf(f, SameKind).RealName?
    ensures RuleOf(f, SameKind).VerifiedPort? ==> f == IdentityField(Port)
    ensures RuleOf(f, SameKind).RicherName? ==> f == IdentityField(FriendlyName)
    ensures RuleOf(f, SameKind).SpecificModel? ==> f == IdentityField(Model)
    ensures RuleOf(f, SameKind).Follows? ==>
              RuleOf(RuleOf(f, SameKind).key, SameKind) in {VerifiedReading, VerifiedPort, PreferVerified}
    ensures RuleOf(f, SameKind) == Follows(IdentityField(Port)) ==> f == IdentityField(PortVerified)
  {
  }

  lemma CommutesOwn(v: BoxInfo, u: BoxInfo, f: Field)
    requires v.id.portVerified && !u.id.portVerified && !RuleOf(f, SameKind).Follows?
    ensures SideOf(v, u, f, SameKind) != SideOf(u, v, f, SameKind) || SameField(v, u, f) <==> Commutes(v, u, f)
  {
    OwnSides(v, u, f);
    OnlyStrategies(f);
    ZeroFields(v, u, f);
    hide SideOf, IsGenericBoxName;
    match RuleOf(f, SameKind)
    case RicherName =>
    case SpecificModel =>
    case VerifiedPort =>
    case _ => hide SameField, IsZero, PickOwn;
  }

  lemma CommutesFollower(v: BoxInfo, u: BoxInfo, f: Field)
    requires v.id.portVerified && !u.id.portVerified && RuleOf(f, SameKind).Follows?
    ensures SideOf(v, u, f, SameKind) != SideOf(u, v, f, SameKind) || SameField(v, u, f) <==> Commutes(v, u, f)
  {
    var key := RuleOf(f, SameKind).key;
    OnlyStrategies(f);
    OnlyStrategies(key);
    SideOfRow(v, u, f, SameKind);
    SideOfRow(u, v, f, SameKind);
    OwnSides(v, u, key);
    assert f == IdentityField(PortVerified) ==> !SameField(v, u, f);
    hide SideOf, SameField, IsZero;
  }

  /**
   Merging a verified with an unverified sighting gives field `f` in either
   order exactly when `Commutes` holds: always for a reading, the device id and
   what follows them; for the port unless the verified record has none; for an
   agent's own value unless the verified record leaves it empty.
   */
  lemma SameInEitherOrder(v: BoxInfo, u: BoxInfo, f: Field)
    requires v.id.portVerified && !u.id.portVerified
    ensures SameField(MergeSameKind(v, u), MergeSameKind(u, v), f) <==> Commutes(v, u, f)
  {
    hide SideOf, SameField, Commutes, MergeSameKind;
    TwoOrders(v, u, f);
    if RuleOf(f, SameKind).Follows? { CommutesFollower(v, u, f); } else { CommutesOwn(v, u, f); }
  }

  /** In both merges a field that follows a key comes from the record the key came from. */
  lemma ReasonWithVerdict(base: BoxInfo, other: BoxInfo, col: Column, f: Field)
    requires RuleOf(f, col).Follows?
    ensures var key := RuleOf(f, col).key;
            || (SameField(Merged(base, other, col), base, f) && SameField(Merged(base, other, col), base, key))
            || (SameField(Merged(base, other, col), other, f) && SameField(Merged(base, other, col), other, key))
  {
    hide Merged, SameField;
    MergedField(base, other, col, f);
    MergedField(base, other, col, RuleOf(f, col).key);
    SideOfRow(base, other, f, col);
    hide SideOf;
  }

  /** A live probe that reports no version of its own: the order of the two sightings decides the version. */
  lemma EmptyVersionDependsOnOrder(v: BoxInfo, u: BoxInfo)
    requires v.id.portVerified && !u.id.portVerified && v.agent.version == "" && u.agent.version != ""
    ensures MergeSameKind(v, u).agent.version == ""
    ensures MergeSameKind(u, v).agent.version == u.agent.version
  {
    var f := AgentField(Version);
    OwnSides(v, u, f);
    MergedField(v, u, SameKind, f);
    MergedField(u, v, SameKind, f);
    hide SideOf, MergeSameKind, Merged;
  }

  /** A reading, or the detail that goes with one. */
  ghost predicate IsReading(f: Field) {
    match RuleOf(f, SameKind)
    case VerifiedReading => true
    case Follows(key) => RuleOf(key, SameKind).VerifiedReading?
    case _ => false
  }

  /** A reading is taken from the verified one of two records, wherever it stands. */
  lemma ReadingFromProbe(base: BoxInfo, other: BoxInfo, f: Field)
    requires IsReading(f) && (base.id.portVerified || other.id.portVerified)
    ensures SameField(MergeSameKind(base, other), if base.id.portVerified then base else other, f)
  {
    hide SameField, Merged, IsZero;
    MergedField(base, other, SameKind, f);
    SideOfRow(base, other, f, SameKind);
    if RuleOf(f, SameKind).Follows? { SideOfRow(base, other, RuleOf(f, SameKind).key, SameKind); }
    hide SideOf;
  }

  /** The address, the kind, the port and the device id of a same-cycle merge. */
  lemma SameKindIdentity(base: BoxInfo, other: BoxInfo)
    ensures var out := MergeSameKind(base, other).id;
            var takesPort := other.id.portVerified && !base.id.portVerified && other.id.port != 0;
            && out.host == base.id.host && out.kind == base.id.kind
            && out.port == (if takesPort then other.id.port else base.id.port)
            && out.portVerified == (base.id.portVerified || takesPort)
            && (out.deviceID == "" <==> base.id.deviceID == "" && other.id.deviceID == "")
  {
    hide MergedAgent, MergedCycle, MergedHealth, MergedWarnings, MergedEvents, IsGenericBoxName, IsGenericModel;
  }

  /** The one record or the other where the first says nothing. */
  function Preferred(a: string, b: string): string {
    if a != "" then a else b
  }

  // ----- the whole record, field by field -----

  /** The longer of two real names, the real one of two, else the longer; the first of equals. */
  ghost function BetterName(a: string, b: string): string {
    if NoRealName(a) && !NoRealName(b) then b
    else if !NoRealName(a) && NoRealName(b) then a
    else if |b| > |a| then b
    else a
  }

  /** The names and ids of a same-cycle merge. */
  lemma SameKindNames(a: BoxInfo, b: BoxInfo)
    ensures var out := MergeSameKind(a, b).id;
            && out.friendlyName == BetterName(a.id.friendlyName, b.id.friendlyName)
            && out.model == (if a.id.model in {"", "SoundTouch"} && b.id.model !in {"", "SoundTouch"} then b.id.model
                             else a.id.model)
            && out.name == Preferred(a.id.name, b.id.name)
            && out.boxDeviceID == Preferred(a.id.boxDeviceID, b.id.boxDeviceID)
            && out.serialNumber == Preferred(a.id.serialNumber, b.id.serialNumber)
            && out.deviceID == (if a.id.portVerified && a.id.deviceID != "" then a.id.deviceID
                                else if b.id.portVerified && b.id.deviceID != "" then b.id.deviceID
                                else Preferred(a.id.deviceID, b.id.deviceID))
  {
    hide MergedAgent, MergedCycle, MergedHealth, MergedWarnings, MergedEvents, IsGenericBoxName, NoRealName;
    GenericNameIs(a.id.friendlyName);
    GenericNameIs(b.id.friendlyName);
  }

  /** What only the agent knows: the verified record's value if it alone is verified and says one, else the
      first value said. */
  function Told(a: string, b: string, av: bool, bv: bool): string {
    if bv && !av && b != "" then b
    else if av && !bv then a
    else if bv && !av then a
    else Preferred(a, b)
  }

  lemma SameKindAgent(a: BoxInfo, b: BoxInfo)
    ensures var out, av, bv := MergeSameKind(a, b).agent, a.id.portVerified, b.id.portVerified;
            && out.version == Told(a.agent.version, b.agent.version, av, bv)
            && out.build == Told(a.agent.build, b.agent.build, av, bv)
            && out.agentBinarySha256 == Told(a.agent.agentBinarySha256, b.agent.agentBinarySha256, av, bv)
            && out.agentRunningSha256 == Told(a.agent.agentRunningSha256, b.agent.agentRunningSha256, av, bv)
            && out.lanAddrs == Told(a.agent.lanAddrs, b.agent.lanAddrs, av, bv)
            && out.wiredAddrs == Told(a.agent.wiredAddrs, b.agent.wiredAddrs, av, bv)
            && out.presetRows == (if (if av == bv then a.agent.version != "" else av || b.agent.version == "")
                                  then a.agent.presetRows else b.agent.presetRows)
  {
    hide MergedIdentity, MergedCycle, MergedHealth, MergedWarnings, MergedEvents;
  }

  /** A reading: the first verified record's, whatever it is; with no verified one the first there is. */
  function Read<T(==)>(a: T, b: T, none: T, av: bool, bv: bool): T {
    if av then a else if bv then b else if a == none then b else a
  }

  /** What goes with a reading comes from the record the reading came from. */
  function With<K(==), T>(key: K, none: K, a: T, b: T, av: bool, bv: bool): T {
    if av then a else if bv then b else if key == none then b else a
  }

  lemma SameKindReadings(a: BoxInfo, b: BoxInfo)
    ensures var out, x, y := MergeSameKind(a, b).health, a.health, b.health;
            var av, bv := a.id.portVerified, b.id.portVerified;
            && out.boxHealth == Read(x.boxHealth, y.boxHealth, "", av, bv)
            && out.internet == Read(x.internet, y.internet, "", av, bv)
            && out.internetReason == With(x.internet, "", x.internetReason, y.internetReason, av, bv)
            && out.arcadeAt == Read(x.arcadeAt, y.arcadeAt, "", av, bv)
    ensures MergeSameKind(a, b).cycle == a.cycle
  {
    hide MergedIdentity, MergedAgent, MergedWarnings, MergedEvents;
  }

  lemma SameKindWarnings(a: BoxInfo, b: BoxInfo)
    ensures var out, x, y := MergeSameKind(a, b).warn, a.warn, b.warn;
            var av, bv := a.id.portVerified, b.id.portVerified;
            && out.conflictingMod == Read(x.conflictingMod, y.conflictingMod, "", av, bv)
            && out.foreignCloudURL == Read(x.foreignCloudURL, y.foreignCloudURL, "", av, bv)
            && out.rivalCloudURL == Preferred(x.rivalCloudURL, y.rivalCloudURL)
            && out.speakerNameUnsafe == Read(x.speakerNameUnsafe, y.speakerNameUnsafe, false, av, bv)
            && out.wlanCredsMissing == Read(x.wlanCredsMissing, y.wlanCredsMissing, false, av, bv)
  {
    hide MergedIdentity, MergedAgent, MergedCycle, MergedHealth, MergedEvents, IsGenericBoxName, IsGenericModel,
         PickBoxName, PickModelName;
  }

  lemma SameKindStorms(a: BoxInfo, b: BoxInfo)
    ensures var out, x, y := MergeSameKind(a, b).warn, a.warn, b.warn;
            var av, bv := a.id.portVerified, b.id.portVerified;
            && out.storm1036 == Read(x.storm1036, y.storm1036, false, av, bv)
            && out.storm1036SinceSec == With(x.storm1036, false, x.storm1036SinceSec, y.storm1036SinceSec, av, bv)
  {
    hide MergedIdentity, MergedAgent, MergedCycle, MergedHealth, MergedEvents, IsGenericBoxName, IsGenericModel,
         PickBoxName, PickModelName;
  }

  lemma SameKindRefusals(a: BoxInfo, b: BoxInfo)
    ensures var out, x, y := MergeSameKind(a, b).warn, a.warn, b.warn;
            var av, bv := a.id.portVerified, b.id.portVerified;
            && out.recallRefusal == Read(x.recallRefusal, y.recallRefusal, false, av, bv)
            && out.recallRefusalSinceSec
               == With(x.recallRefusal, false, x.recallRefusalSinceSec, y.recallRefusalSinceSec, av, bv)
  {
    hide MergedIdentity, MergedAgent, MergedCycle, MergedHealth, MergedEvents, IsGenericBoxName, IsGenericModel,
         PickBoxName, PickModelName;
  }

  lemma SameKindEvents(a: BoxInfo, b: BoxInfo)
    ensures var out, x, y := MergeSameKind(a, b).events, a.events, b.events;
            var av, bv := a.id.portVerified, b.id.portVerified;
            && out.groupKeyError == Read(x.groupKeyError, y.groupKeyError, "", av, bv)
            && out.groupKeyErrorKind == With(x.groupKeyError, "", x.groupKeyErrorKind, y.groupKeyErrorKind, av, bv)
            && out.weakWifiDropout == Read(x.weakWifiDropout, y.weakWifiDropout, "", av, bv)
            && out.weakWifiDropoutAgeSec
               == With(x.weakWifiDropout, "", x.weakWifiDropoutAgeSec, y.weakWifiDropoutAgeSec, av, bv)
            && out.holdRefusedSource == Read(x.holdRefusedSource, y.holdRefusedSource, "", av, bv)
            && out.holdRefusedSlot == With(x.holdRefusedSource, "", x.holdRefusedSlot, y.holdRefusedSlot, av, bv)
            && out.staleFolderKeySlot == Read(x.staleFolderKeySlot, y.staleFolderKeySlot, "", av, bv)
  {
    hide MergedIdentity, MergedAgent, MergedCycle, MergedHealth, MergedWarnings;
  }

  /** The merge in either order of a live probe `v` that reports everything and an announcement `u`. */
  ghost predicate FromProbe(v: BoxInfo, u: BoxInfo, out: BoxInfo) {
    && out.health == v.health && out.events == v.events
    && out.warn.(rivalCloudURL := "") == v.warn.(rivalCloudURL := "")
    && out.id.deviceID == Preferred(v.id.deviceID, u.id.deviceID)
    && (v.id.port != 0 ==> out.id.port == v.id.port && out.id.portVerified)
    && (v.agent.version != "" ==> out.agent.version == v.agent.version && out.agent.presetRows == v.agent.presetRows)
    && (v.agent.build != "" ==> out.agent.build == v.agent.build)
    && (v.agent.agentBinarySha256 != "" ==> out.agent.agentBinarySha256 == v.agent.agentBinarySha256)
    && (v.agent.agentRunningSha256 != "" ==> out.agent.agentRunningSha256 == v.agent.agentRunningSha256)
    && (v.agent.lanAddrs != "" ==> out.agent.lanAddrs == v.agent.lanAddrs)
    && (v.agent.wiredAddrs != "" ==> out.agent.wiredAddrs == v.agent.wiredAddrs)
  }

  /** Announcement first or probe first: port, version, addresses, id and readings are the probe's. */
  lemma ProbeWinsInEitherOrder(v: BoxInfo, u: BoxInfo)
    requires v.id.portVerified && !u.id.portVerified
    ensures FromProbe(v, u, MergeSameKind(v, u)) && FromProbe(v, u, MergeSameKind(u, v))
  {
    ProbeIdentity(v, u);
    ProbeAgent(v, u);
    ProbeVerdicts(v, u);
    ProbeWarnings(v, u);
    ProbeWarnings(u, v);
    ProbeEvents(v, u);
    hide MergedIdentity, MergedAgent, MergedHealth, MergedWarnings, MergedEvents;
  }

  lemma ProbeIdentity(v: BoxInfo, u: BoxInfo)
    requires v.id.portVerified && !u.id.portVerified
    ensures forall out :: out in {MergedIdentity(v, u, SameKind), MergedIdentity(u, v, SameKind)} ==>
              && out.deviceID == Preferred(v.id.deviceID, u.id.deviceID)
              && (v.id.port != 0 ==> out.port == v.id.port && out.portVerified)
  {
    hide IsGenericBoxName, IsGenericModel;
  }

  lemma ProbeAgent(v: BoxInfo, u: BoxInfo)
    requires v.id.portVerified && !u.id.portVerified
    ensures MergedAgent(v, u, SameKind) == v.agent
    ensures var out := MergedAgent(u, v, SameKind);
            && out.version == Preferred(v.agent.version, u.agent.version)
            && out.presetRows == (if v.agent.version != "" then v.agent.presetRows else u.agent.presetRows)
            && out.build == Preferred(v.agent.build, u.agent.build)
            && out.agentBinarySha256 == Preferred(v.agent.agentBinarySha256, u.agent.agentBinarySha256)
            && out.agentRunningSha256 == Preferred(v.agent.agentRunningSha256, u.agent.agentRunningSha256)
            && out.lanAddrs == Preferred(v.agent.lanAddrs, u.agent.lanAddrs)
            && out.wiredAddrs == Preferred(v.agent.wiredAddrs, u.agent.wiredAddrs)
  {
  }

  lemma ProbeVerdicts(v: BoxInfo, u: BoxInfo)
    requires v.id.portVerified && !u.id.portVerified
    ensures MergedHealth(v, u, SameKind) == MergedHealth(u, v, SameKind) == v.health
  {
  }

  lemma ProbeWarnings(base: BoxInfo, other: BoxInfo)
    requires base.id.portVerified != other.id.portVerified
    ensures var probe := if base.id.portVerified then base else other;
            MergedWarnings(base, other, SameKind).(rivalCloudURL := "") == probe.warn.(rivalCloudURL := "")
  {
  }

  lemma ProbeEvents(v: BoxInfo, u: BoxInfo)
    requires v.id.portVerified && !u.id.portVerified
    ensures MergedEvents(v, u, SameKind) == MergedEvents(u, v, SameKind) == v.events
  {
  }
}
