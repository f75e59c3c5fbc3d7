/**
  The `policies.yml` entry of the ConfigMap of a policy server: how the PolicyServer reconciler builds it, how it is
  written as JSON, and how the policy reconcilers read it back. JSON is a tree of values; its text form is not modelled.
 */
module PolicyServerConfig {
  import opened Options
  import opened PolicyNames

  // ---- policies ----

  datatype ContextAwareResource = ContextAwareResource(apiVersion: string, kind: string)

  /** Settings are free-form JSON. An absent value and an explicit null are both None. */
  type Settings = s: Option<Json> | s != Some(Null) witness None

  type Int32 = n: int | -0x8000_0000 <= n < 0x8000_0000

  datatype Member = Member(
    modul: string, settings: Settings, contextAware: seq<ContextAwareResource>, timeoutEval: Option<Int32>)

  /** The spec of a policy, by kind. A policy group has no module, no settings and no timeout of its own. */
  datatype Spec =
    | Single(modul: string, mutating: bool, settings: Settings, contextAware: seq<ContextAwareResource>,
             timeoutEval: Option<Int32>)
    | Group(members: map<string, Member>, expression: string)

  datatype Policy = Policy(id: PolicyId, mode: string, message: string, spec: Spec)
  {
    /** What the validating webhooks admit: a module, or a group with at least one member. */
    predicate Admitted() {
      && id.Valid()
      && match spec
         case Single(modul, _, _, _, _) => modul != ""
         case Group(members, _) => members != map[]
    }
  }

  // ---- entries ----

  datatype MemberEntry = MemberEntry(
    modul: string, settings: Settings, contextAware: seq<ContextAwareResource>, timeoutEval: Option<Int32>,
    hostCapabilities: seq<string>)

  datatype Entry = Entry(
    namespace: string, name: string, modul: string, mode: string, allowedToMutate: bool,
    contextAware: seq<ContextAwareResource>, settings: Settings, message: string, timeoutEval: Option<Int32>,
    hostCapabilities: seq<string>, policies: map<string, MemberEntry>, expression: string)

  /** hostCapabilitiesForPolicy. `configured` is the field of the PolicyServer, if it is set. */
  function HostCapabilities(id: PolicyId, configured: Option<seq<string>>): seq<string> {
    if id.Namespaced() && configured.Some? then configured.value else ["*"]
  }

  function MemberEntryOf(m: Member, caps: seq<string>): MemberEntry {
    MemberEntry(m.modul, m.settings, m.contextAware, m.timeoutEval, caps)
  }

  function EntryOf(p: Policy, configured: Option<seq<string>>): Entry {
    var caps := HostCapabilities(p.id, configured);
    match p.spec
    case Single(modul, mutating, settings, contextAware, timeoutEval) =>
      Entry(p.id.Namespace(), p.id.name, modul, p.mode, mutating, contextAware, settings, p.message, timeoutEval,
            caps, map[], "")
    case Group(members, expression) =>
      Entry(p.id.Namespace(), p.id.name, "", p.mode, false, [], None, p.message, None, caps,
            map n | n in members :: MemberEntryOf(members[n], caps), expression)
  }

  // ---- JSON ----

  /** The JSON names of the fields of the structs. */
  datatype Tag =
    | TNamespacedName | TNamespace | TName | TModule | TPolicyMode | TAllowedToMutate | TContextAwareResources
    | TApiVersion | TKind | TSettings | TMessage | TTimeoutEvalSeconds | THostCapabilities | TPolicies | TExpression

  /** JSON values. An object written from a struct has tags as keys, one written from a map has arbitrary keys. */
  datatype Json =
    | Null | Bool(b: bool) | Num(n: int) | Str(s: string) | Arr(items: seq<Json>)
    | Obj(fields: map<Tag, Json>) | Dict(values: map<string, Json>)

  function Strings(ss: seq<string>): Json {
    Arr(seq(|ss|, i requires 0 <= i < |ss| => Str(ss[i])))
  }

  function Resources(rs: seq<ContextAwareResource>): Json {
    Arr(seq(|rs|, i requires 0 <= i < |rs| => Obj(map[TApiVersion := Str(rs[i].apiVersion), TKind := Str(rs[i].kind)])))
  }

  /** A field that `omitempty` leaves out when it holds nothing. */
  function With(fields: map<Tag, Json>, key: Tag, present: bool, value: Json): map<Tag, Json> {
    if present then fields[key := value] else fields
  }

  function SettingsJson(s: Settings): Json {
    if s.Some? then s.value else Null
  }

  function TimeoutJson(t: Option<Int32>): Json {
    if t.Some? then Num(t.value) else Null
  }

  /** The two optional fields that single policies and group members share. */
  function WithOptional(fields: map<Tag, Json>, rs: seq<ContextAwareResource>, t: Option<Int32>): map<Tag, Json> {
    With(With(fields, TContextAwareResources, rs != [], Resources(rs)), TTimeoutEvalSeconds, t.Some?, TimeoutJson(t))
  }

  function NamespacedName(e: Entry): Json {
    Obj(map[TNamespace := Str(e.namespace), TName := Str(e.name)])
  }

  function MarshalMember(m: MemberEntry): Json {
    Obj(WithOptional(map[TModule := Str(m.modul), TSettings := SettingsJson(m.settings),
                         THostCapabilities := Strings(m.hostCapabilities)], m.contextAware, m.timeoutEval))
  }

  /** policyServerConfigEntry.MarshalJSON: a group and a single policy are written with different fields. */
  function Marshal(e: Entry): Json {
    if |e.policies| > 0 then
      Obj(map[TNamespacedName := NamespacedName(e), TPolicyMode := Str(e.mode),
              TPolicies := Dict(map n | n in e.policies :: MarshalMember(e.policies[n])),
              TExpression := Str(e.expression), TMessage := Str(e.message)])
    else
      Obj(With(WithOptional(map[TNamespacedName := NamespacedName(e), TModule := Str(e.modul),
                                TPolicyMode := Str(e.mode), TAllowedToMutate := Bool(e.allowedToMutate),
                                TSettings := SettingsJson(e.settings),
                                THostCapabilities := Strings(e.hostCapabilities)], e.contextAware, e.timeoutEval),
               TMessage, e.message != "", Str(e.message)))
  }

  function MarshalMap(m: map<string, Entry>): Json {
    Dict(map n | n in m :: Marshal(m[n]))
  }

  // ---- reading JSON: an absent field and null leave the zero value, a value of the wrong type is an error ----

  function Field(fields: map<Tag, Json>, key: Tag): Json {
    if key in fields then fields[key] else Null
  }

  function ReadString(j: Json): Option<string> {
    match j
    case Null => Some("")
    case Str(s) => Some(s)
    case _ => None
  }

  function ReadBool(j: Json): Option<bool> {
    match j
    case Null => Some(false)
    case Bool(b) => Some(b)
    case _ => None
  }

  function ReadTimeout(j: Json): Option<Option<Int32>> {
    match j
    case Null => Some(None)
    case Num(n) => if -0x8000_0000 <= n < 0x8000_0000 then Some(Some(n)) else None
    case _ => None
  }

  function ReadSettings(j: Json): Settings {
    if j == Null then None else Some(j)
  }

  function ReadItems(items: seq<Json>): (r: Option<seq<string>>)
    ensures r.Some? ==> |r.value| == |items|
  {
    if items == [] then Some([])
    else
      match (ReadString(items[0]), ReadItems(items[1..]))
      case (Some(s), Some(rest)) => Some([s] + rest)
      case _ => None
  }

  function ReadStrings(j: Json): Option<seq<string>> {
    match j
    case Null => Some([])
    case Arr(items) => ReadItems(items)
    case _ => None
  }

  function ReadResource(j: Json): Option<ContextAwareResource> {
    match j
    case Null => Some(ContextAwareResource("", ""))
    case Obj(f) =>
      (match (ReadString(Field(f, TApiVersion)), ReadString(Field(f, TKind)))
       case (Some(apiVersion), Some(kind)) => Some(ContextAwareResource(apiVersion, kind))
       case _ => None)
    case _ => None
  }

  function ReadResourceItems(items: seq<Json>): Option<seq<ContextAwareResource>> {
    if items == [] then Some([])
    else
      match (ReadResource(items[0]), ReadResourceItems(items[1..]))
      case (Some(r), Some(rest)) => Some([r] + rest)
      case _ => None
  }

  function ReadResources(j: Json): Option<seq<ContextAwareResource>> {
    match j
    case Null => Some([])
    case Arr(items) => ReadResourceItems(items)
    case _ => None
  }

  function ReadMember(j: Json): Option<MemberEntry> {
    match j
    case Null => Some(MemberEntry("", None, [], None, []))
    case Obj(f) =>
      (match (ReadString(Field(f, TModule)), ReadResources(Field(f, TContextAwareResources)),
              ReadTimeout(Field(f, TTimeoutEvalSeconds)), ReadStrings(Field(f, THostCapabilities)))
       case (Some(modul), Some(contextAware), Some(timeout), Some(caps)) =>
         Some(MemberEntry(modul, ReadSettings(Field(f, TSettings)), contextAware, timeout, caps))
       case _ => None)
    case _ => None
  }

  function ReadMembers(j: Json): Option<map<string, MemberEntry>> {
    match j
    case Null => Some(map[])
    case Dict(f) =>
      if forall n :: n in f ==> ReadMember(f[n]).Some? then Some(map n | n in f :: ReadMember(f[n]).value) else None
    case _ => None
  }

  function ReadNamespacedName(j: Json): Option<(string, string)> {
    match j
    case Null => Some(("", ""))
    case Obj(f) =>
      (match (ReadString(Field(f, TNamespace)), ReadString(Field(f, TName)))
       case (Some(namespace), Some(name)) => Some((namespace, name))
       case _ => None)
    case _ => None
  }

  /** json.Unmarshal into the fields of the entry. */
  function ReadEntry(f: map<Tag, Json>): Option<Entry> {
    match (ReadNamespacedName(Field(f, TNamespacedName)), ReadString(Field(f, TModule)),
           ReadString(Field(f, TPolicyMode)), ReadBool(Field(f, TAllowedToMutate)),
           ReadResources(Field(f, TContextAwareResources)), ReadString(Field(f, TMessage)),
           ReadTimeout(Field(f, TTimeoutEvalSeconds)), ReadStrings(Field(f, THostCapabilities)),
           ReadMembers(Field(f, TPolicies)), ReadString(Field(f, TExpression)))
    case (Some((namespace, name)), Some(modul), Some(mode), Some(mutating), Some(contextAware), Some(message),
          Some(timeout), Some(caps), Some(policies), Some(expression)) =>
      Some(Entry(namespace, name, modul, mode, mutating, contextAware, ReadSettings(Field(f, TSettings)), message,
                 timeout, caps, policies, expression))
    case _ => None
  }

  /** policyServerConfigEntry.UnmarshalJSON: an entry has a module or members, and never both. */
  function Unmarshal(j: Json): Option<Entry> {
    match j
    case Obj(f) =>
      (match ReadEntry(f)
       case Some(e) => if (e.policies == map[]) == (e.modul == "") then None else Some(e)
       case None => None)
    case _ => None
  }

  /** getPolicyMapFromConfigMap on the text of `policies.yml`. */
  function UnmarshalMap(j: Json): Option<map<string, Entry>> {
    match j
    case Dict(f) =>
      if forall n :: n in f ==> Unmarshal(f[n]).Some? then Some(map n | n in f :: Unmarshal(f[n]).value) else None
    case _ => None
  }

  // ---- what the reader gets back ----

  /** The entry without the field that the writer leaves out for a policy group. */
  function AsRead(e: Entry): Entry {
    if |e.policies| > 0 then e.(hostCapabilities := []) else e
  }

  lemma {:induction false} StringsRoundTrip(ss: seq<string>)
    ensures ReadStrings(Strings(ss)) == Some(ss)
  {
    if ss != [] {
      StringsRoundTrip(ss[1..]);
      assert Strings(ss).items[1..] == Strings(ss[1..]).items;
      assert [ss[0]] + ss[1..] == ss;
    }
  }

  lemma {:induction false} ResourcesRoundTrip(rs: seq<ContextAwareResource>)
    ensures ReadResources(Resources(rs)) == Some(rs)
  {
    if rs != [] {
      ResourcesRoundTrip(rs[1..]);
      assert Resources(rs).items[1..] == Resources(rs[1..]).items;
      assert [rs[0]] + rs[1..] == rs;
    }
  }

  lemma MemberRoundTrip(m: MemberEntry)
    ensures ReadMember(MarshalMember(m)) == Some(m)
  {
    hide Strings, Resources, MarshalMember;
    MemberFields(m);
    StringsRoundTrip(m.hostCapabilities);
    ResourcesRoundTrip(m.contextAware);
  }

  lemma MembersRoundTrip(ms: map<string, MemberEntry>)
    ensures ReadMembers(Dict(map n | n in ms :: MarshalMember(ms[n]))) == Some(ms)
  {
    hide ReadMember, MarshalMember;
    var d := map n | n in ms :: MarshalMember(ms[n]);
    forall n | n in ms ensures ReadMember(d[n]) == Some(ms[n]) {
      MemberRoundTrip(ms[n]);
    }
    assert (map n | n in d :: ReadMember(d[n]).value) == ms;
  }

  /** The fields of a single policy as the reader finds them. */
  lemma SingleFields(e: Entry)
    requires e.policies == map[]
    ensures Marshal(e).Obj?
    ensures var f := Marshal(e).fields;
            && Field(f, TNamespacedName) == NamespacedName(e) && Field(f, TModule) == Str(e.modul)
            && Field(f, TPolicyMode) == Str(e.mode) && Field(f, TAllowedToMutate) == Bool(e.allowedToMutate)
            && Field(f, TSettings) == SettingsJson(e.settings) &&
               Field(f, THostCapabilities) == Strings(e.hostCapabilities)
            && Field(f, TPolicies) == Null && Field(f, TExpression) == Null
    ensures var f := Marshal(e).fields;
            && Field(f, TContextAwareResources) == (if e.contextAware != [] then Resources(e.contextAware) else Null)
            && Field(f, TTimeoutEvalSeconds) == (if e.timeoutEval.Some? then Num(e.timeoutEval.value) else Null)
            && Field(f, TMessage) == (if e.message != "" then Str(e.message) else Null)
  {
    hide Strings, Resources, NamespacedName, SettingsJson;
  }

  lemma SingleRoundTrip(e: Entry)
    requires e.policies == map[] && e.expression == "" && e.modul != ""
    ensures Unmarshal(Marshal(e)) == Some(e)
  {
    hide Marshal, Strings, Resources;
    SingleFields(e);
    StringsRoundTrip(e.hostCapabilities);
    ResourcesRoundTrip(e.contextAware);
  }

  /** The fields of a policy group, and of each of its members, as the reader finds them. */
  lemma GroupFields(e: Entry)
    requires e.policies != map[]
    ensures Marshal(e).Obj?
    ensures var f := Marshal(e).fields;
            && Field(f, TNamespacedName) == NamespacedName(e) && Field(f, TPolicyMode) == Str(e.mode)
            && Field(f, TExpression) == Str(e.expression) && Field(f, TMessage) == Str(e.message)
            && Field(f, TPolicies).Dict? && Field(f, TPolicies).values.Keys == e.policies.Keys
            && Field(f, TModule) == Null && Field(f, TSettings) == Null && Field(f, THostCapabilities) == Null
            && Field(f, TAllowedToMutate) == Null && Field(f, TContextAwareResources) == Null
            && Field(f, TTimeoutEvalSeconds) == Null
            && Field(f, TPolicies) == Dict(map n | n in e.policies :: MarshalMember(e.policies[n]))
  {
    hide MarshalMember, NamespacedName;
  }

  lemma MemberFields(m: MemberEntry)
    ensures MarshalMember(m).Obj?
    ensures var f := MarshalMember(m).fields;
            && Field(f, TModule) == Str(m.modul) && Field(f, TSettings) == SettingsJson(m.settings)
            && Field(f, THostCapabilities) == Strings(m.hostCapabilities)
            && Field(f, TContextAwareResources) == (if m.contextAware != [] then Resources(m.contextAware) else Null)
            && Field(f, TTimeoutEvalSeconds) == (if m.timeoutEval.Some? then Num(m.timeoutEval.value) else Null)
  {
    hide Strings, Resources, SettingsJson;
  }

  lemma GroupRoundTrip(e: Entry)
    requires e.policies != map[] && e.modul == "" && !e.allowedToMutate && e.contextAware == []
    requires e.settings == None && e.timeoutEval == None
    ensures Unmarshal(Marshal(e)) == Some(e.(hostCapabilities := []))
  {
    hide Marshal, MarshalMember, ReadMembers;
    GroupFields(e);
    MembersRoundTrip(e.policies);
  }

  /** Writing and reading the entry of an admitted policy gives it back. */
  lemma EntryRoundTrip(p: Policy, configured: Option<seq<string>>)
    requires p.Admitted()
    ensures Unmarshal(Marshal(EntryOf(p, configured))) == Some(AsRead(EntryOf(p, configured)))
  {
    hide Marshal, Unmarshal;
    var e := EntryOf(p, configured);
    if p.spec.Group? {
      assert e.policies.Keys == p.spec.members.Keys;
      GroupRoundTrip(e);
    } else {
      SingleRoundTrip(e);
    }
  }

  // ---- what an entry says about its policy ----

  /** The host capabilities of a policy: a namespaced one gets the configured list, if there is one. */
  ghost predicate Granted(caps: seq<string>, id: PolicyId, configured: Option<seq<string>>) {
    match id
    case AdmissionPolicy(_, _) => caps == if configured.Some? then configured.value else ["*"]
    case AdmissionPolicyGroup(_, _) => caps == if configured.Some? then configured.value else ["*"]
    case ClusterAdmissionPolicy(_) => caps == ["*"]
    case ClusterAdmissionPolicyGroup(_) => caps == ["*"]
  }

  ghost predicate NamedAfter(e: Entry, id: PolicyId) {
    match id
    case AdmissionPolicy(namespace, name) => e.namespace == namespace && e.name == name
    case AdmissionPolicyGroup(namespace, name) => e.namespace == namespace && e.name == name
    case ClusterAdmissionPolicy(name) => e.namespace == "" && e.name == name
    case ClusterAdmissionPolicyGroup(name) => e.namespace == "" && e.name == name
  }

  /** The entry, as it is read, holds the policy's own fields: its spec, or its members with theirs, and what they are
      allowed to call. */
  ghost predicate Describes(e: Entry, p: Policy, configured: Option<seq<string>>) {
    && NamedAfter(e, p.id) && e.mode == p.mode && e.message == p.message
    && match p.spec
       case Single(modul, mutating, settings, contextAware, timeoutEval) =>
         && e.modul == modul && e.allowedToMutate == mutating && e.settings == settings
         && e.contextAware == contextAware && e.timeoutEval == timeoutEval
         && Granted(e.hostCapabilities, p.id, configured) && e.policies == map[]
       case Group(members, expression) =>
         && e.modul == "" && e.expression == expression && e.policies.Keys == members.Keys
         && forall n :: n in members ==>
              && e.policies[n].modul == members[n].modul && e.policies[n].settings == members[n].settings
              && e.policies[n].contextAware == members[n].contextAware
              && e.policies[n].timeoutEval == members[n].timeoutEval
              && Granted(e.policies[n].hostCapabilities, p.id, configured)
  }

  lemma EntryDescribes(p: Policy, configured: Option<seq<string>>)
    ensures Describes(EntryOf(p, configured), p, configured)
    ensures p.Admitted() ==> Describes(AsRead(EntryOf(p, configured)), p, configured)
  {
    var e := EntryOf(p, configured);
    if p.spec.Group? {
      assert e.policies.Keys == p.spec.members.Keys;
    }
  }

  /** For every map whose entries come from admitted policies, parsing what was written succeeds and gives exactly the
      same keys and entries. */
  lemma ConfigRoundTrip(m: map<string, Entry>, configured: Option<seq<string>>)
    requires forall n :: n in m ==> exists p: Policy :: p.Admitted() && m[n] == EntryOf(p, configured)
    ensures UnmarshalMap(MarshalMap(m)) == Some(map n | n in m :: AsRead(m[n]))
  {
    hide Marshal, Unmarshal, EntryOf, AsRead;
    var d := map n | n in m :: Marshal(m[n]);
    forall n | n in m ensures Unmarshal(d[n]) == Some(AsRead(m[n])) {
      var p: Policy :| p.Admitted() && m[n] == EntryOf(p, configured);
      EntryRoundTrip(p, configured);
    }
    assert (map n | n in d :: Unmarshal(d[n]).value) == (map n | n in m :: AsRead(m[n]));
  }

  /** The reader accepts a single policy exactly when it has a module. */
  lemma SingleReadable(e: Entry)
    requires e.policies == map[] && e.expression == ""
    ensures Unmarshal(Marshal(e)) == Some(e) <==> e.modul != ""
  {
    if e.modul != "" {
      SingleRoundTrip(e);
    } else {
      hide Marshal;
      SingleFields(e);
    }
  }
}
