/** The caller-supplied options of a Guard, the check the constructor makes
    on them and the normalisation `adaptOptions` applies
    (packages/guard-core-v6/src/index.tsx, constructor and adaptOptions). */
module GuardOptions {
  import opened Wrappers
  import opened JsValues

  /** `GuardMode`: the widget is either an overlay or embedded in the page. */
  datatype Mode = Modal | Normal

  function ModeName(m: Mode): string {
    match m
    case Modal => "modal"
    case Normal => "normal"
  }

  /** The fields of the nested `config` object (`IGuardConfig`) that the core
      reads or writes by name; `Other` stands for each remaining field. In
      JavaScript `Other("host")` and `Host` would be one key: a config is
      only meaningful when it is `Unshadowed`. */
  datatype Field =
    | IsSSO | DefaultScenes | Lang | Host | ModeField
    | SocialConnectionList | SocialConnections
    | LoginMethod | DefaultLoginMethod
    | LoginMethodList | LoginMethods
    | RegisterMethodList | RegisterMethods
    | RegisterMethod | DefaultRegisterMethod
    | ContentCSS | ContentCss
    | Other(name: string)

  /** The nested `config` object: a dictionary from field to value;
      a field whose value is `undefined` is an absent key. */
  type Config = map<Field, Value>

  /** The JavaScript names of the fields the core names. */
  const NamedFieldNames: set<string> := {
    "isSSO", "defaultScenes", "lang", "host", "mode",
    "socialConnectionList", "socialConnections", "loginMethod", "defaultLoginMethod",
    "loginMethodList", "loginMethods", "registerMethodList", "registerMethods",
    "registerMethod", "defaultRegisterMethod", "contentCSS", "contentCss"
  }

  /** No `Other` key spells the name of a named field. */
  predicate Unshadowed<V>(c: map<Field, V>) {
    forall k :: k in c && k.Other? ==> k.name !in NamedFieldNames
  }

  /** `GuardOptions`, restricted to the fields the core reads. */
  datatype Options = Options(
    appId: Option<string>,
    host: Option<string>,
    tenantId: Option<string>,
    redirectUri: Option<string>,
    mode: Option<Mode>,
    lang: Option<string>,
    isSSO: Option<bool>,
    defaultScene: Option<Value>,
    config: Option<Config>)

  datatype Error =
    | AppIdRequired                       // thrown by the constructor
    | ConfigRejected(reason: string)      // the shared public-config promise rejected
    // The same, re-thrown as `new Error(JSON.stringify(e))`. Every rejection of
    // the public-config fetch is an `Error`, which `JSON.stringify` renders as
    // `"{}"`, so the source's message carries nothing of `reason`.
    | ConfigRejectedWrapped(reason: string)
    | ExchangeFailed(reason: string)      // the code-for-token exchange rejected
    | UnknownEvent(name: string)          // `eventListeners[evt]` is undefined in `on`

  /** The constructor's guard: a falsy `appId` is refused. */
  function CheckAppId(options: Options): (r: Result<Options, Error>)
    ensures r.Failure? <==> !Truthy(options.appId)
    ensures r.Failure? ==> r.error == AppIdRequired
    ensures r.Success? ==> r.value == options
  {
    if !Truthy(options.appId) then Failure(AppIdRequired) else Success(options)
  }

  /** `{ ...options.config }`: spreading `undefined` gives an empty object. */
  function BaseConfig(options: Options): Config {
    options.config.GetOr(map[])
  }

  /** The legacy config fields, each copied to a current field. */
  const LegacyFields: set<Field> := {
    SocialConnectionList, LoginMethod, LoginMethodList,
    RegisterMethodList, RegisterMethod, ContentCSS
  }

  /** The config keys the legacy aliases are copied to. */
  const AliasTargets: set<Field> := {
    SocialConnections, DefaultLoginMethod, LoginMethods,
    RegisterMethods, DefaultRegisterMethod, ContentCss
  }

  /** Every config key `adaptOptions` may write. */
  const WrittenKeys: set<Field> := TopLevelKeys + AliasTargets

  /** A top-level option copied into `config[key]` only when it is defined. */
  predicate CopiedWhenDefined(v: Option<Value>, base: Config, c: Config, key: Field) {
    if v.Some? then key in c && c[key] == v.value else SameEntry(base, c, key)
  }

  /** Every legacy field copied to its current name, each only when it is defined. */
  predicate AliasesCopied<V(==)>(base: map<Field, V>, c: map<Field, V>) {
    && AliasCopied(base, c, SocialConnectionList, SocialConnections)
    && AliasCopied(base, c, LoginMethod, DefaultLoginMethod)
    && AliasCopied(base, c, LoginMethodList, LoginMethods)
    && AliasCopied(base, c, RegisterMethodList, RegisterMethods)
    && AliasCopied(base, c, RegisterMethod, DefaultRegisterMethod)
    && AliasCopied(base, c, ContentCSS, ContentCss)
  }

  /** A legacy field copied to its new name only when it is defined. */
  predicate AliasCopied<V(==)>(base: map<Field, V>, c: map<Field, V>, legacy: Field, current: Field) {
    if legacy in base then current in c && c[current] == base[legacy]
    else SameEntry(base, c, current)
  }

  function BoolValue(b: Option<bool>): Option<Value> {
    if b.Some? then Some(Bool(b.value)) else None
  }

  function StrValue(s: Option<string>): Option<Value> {
    if s.Some? then Some(Str(s.value)) else None
  }

  function ModeValue(m: Option<Mode>): Option<Value> {
    if m.Some? then Some(Str(ModeName(m.value))) else None
  }

  /** The keys the top-level options are copied to. */
  const TopLevelKeys: set<Field> := {IsSSO, DefaultScenes, Lang, Host, ModeField}

  /** The first half of `adaptOptions`: `host` becomes `''` when falsy and is
      always copied into the config; `isSSO`, `defaultScene` (as
      `defaultScenes`), `lang` and `mode` are copied when defined. */
  method CopyTopLevel(options: Options, config: Config) returns (host: Option<string>, c: Config)
    ensures host == Some(OrDefault(options.host, ""))
    ensures Host in c && c[Host] == Str(OrDefault(options.host, ""))
    ensures CopiedWhenDefined(BoolValue(options.isSSO), config, c, IsSSO)
    ensures CopiedWhenDefined(options.defaultScene, config, c, DefaultScenes)
    ensures CopiedWhenDefined(StrValue(options.lang), config, c, Lang)
    ensures CopiedWhenDefined(ModeValue(options.mode), config, c, ModeField)
    ensures forall k :: k !in TopLevelKeys ==> SameEntry(config, c, k)
  {
    c := config;
    host := Some(OrDefault(options.host, ""));
    if options.isSSO.Some? {
      c := c[IsSSO := Bool(options.isSSO.value)];
    }
    if options.defaultScene.Some? {
      c := c[DefaultScenes := options.defaultScene.value];
    }
    if options.lang.Some? {
      c := c[Lang := Str(options.lang.value)];
    }
    if host.Some? {
      c := c[Host := Str(host.value)];
    }
    if options.mode.Some? {
      c := c[ModeField := Str(ModeName(options.mode.value))];
    }
  }

  /** The second half of `adaptOptions`: each legacy alias is copied to its
      current name when it is defined; nothing else changes. The copy does not
      look at the values, so it is stated for any value type. */
  method CopyLegacyAliases<V>(config: map<Field, V>) returns (c: map<Field, V>)
    ensures AliasesCopied(config, c)
    ensures forall k :: k !in AliasTargets ==> SameEntry(config, c, k)
  {
    c := config;
    if SocialConnectionList in c {
      c := c[SocialConnections := c[SocialConnectionList]];
    }
    if LoginMethod in c {
      c := c[DefaultLoginMethod := c[LoginMethod]];
    }
    if LoginMethodList in c {
      c := c[LoginMethods := c[LoginMethodList]];
    }
    if RegisterMethodList in c {
      c := c[RegisterMethods := c[RegisterMethodList]];
    }
    if RegisterMethod in c {
      c := c[DefaultRegisterMethod := c[RegisterMethod]];
    }
    if ContentCSS in c {
      c := c[ContentCss := c[ContentCSS]];
    }
  }

  /** Copying the aliases out of `b` is copying them out of `a` when `a` and
      `b` agree on every legacy and every current alias field. */
  lemma AliasesCopiedThrough<V>(a: map<Field, V>, b: map<Field, V>, c: map<Field, V>)
    requires forall k :: k in LegacyFields || k in AliasTargets ==> SameEntry(a, b, k)
    requires AliasesCopied(b, c)
    ensures AliasesCopied(a, c)
  {
    assert SameEntry(a, b, SocialConnectionList) && SameEntry(a, b, SocialConnections);
    assert SameEntry(a, b, LoginMethod) && SameEntry(a, b, DefaultLoginMethod);
    assert SameEntry(a, b, LoginMethodList) && SameEntry(a, b, LoginMethods);
    assert SameEntry(a, b, RegisterMethodList) && SameEntry(a, b, RegisterMethods);
    assert SameEntry(a, b, RegisterMethod) && SameEntry(a, b, DefaultRegisterMethod);
    assert SameEntry(a, b, ContentCSS) && SameEntry(a, b, ContentCss);
  }

  /** What `adaptOptions(options, config)` returns: `options` with `host`
      normalised to `''` when falsy and with a config that carries the host,
      each defined top-level option, each defined legacy alias under its
      current name, and every other key of `config` as it was. */
  ghost predicate Adapted(options: Options, config: Config, adapted: Options) {
    && adapted.config.Some?
    && adapted == options.(host := Some(OrDefault(options.host, "")), config := adapted.config)
    && var c := adapted.config.value;
    && Host in c && c[Host] == Str(OrDefault(options.host, ""))
    && CopiedWhenDefined(BoolValue(options.isSSO), config, c, IsSSO)
    && CopiedWhenDefined(options.defaultScene, config, c, DefaultScenes)
    && CopiedWhenDefined(StrValue(options.lang), config, c, Lang)
    && CopiedWhenDefined(ModeValue(options.mode), config, c, ModeField)
    && AliasesCopied(config, c)
    && (forall k :: k !in WrittenKeys ==> SameEntry(config, c, k))
  }

  /** `adaptOptions(options, config)`: the two halves in order, with
      `options.config = config` between them, so the aliases are read back
      from the config the top-level options were copied into. Every config key
      outside the written ones is left as it was. */
  method AdaptOptions(options: Options, config: Config) returns (adapted: Options)
    ensures Adapted(options, config, adapted)
  {
    var host, top := CopyTopLevel(options, config);
    var c := CopyLegacyAliases(top);
    adapted := options.(host := host, config := Some(c));
    AliasesCopiedThrough(config, top, c);
    forall k | k !in WrittenKeys ensures SameEntry(config, c, k) {
      assert SameEntry(config, top, k) && SameEntry(top, c, k);
    }
  }

  /** `adaptOptions` only writes named fields, so a config without
      shadowing `Other` keys stays without them. */
  lemma AdaptedUnshadowed(options: Options, config: Config, adapted: Options)
    requires Adapted(options, config, adapted) && Unshadowed(config)
    ensures Unshadowed(adapted.config.value)
  {
    var c := adapted.config.value;
    forall k | k in c && k.Other? ensures k.name !in NamedFieldNames {
      assert k !in WrittenKeys;
      assert SameEntry(config, c, k);
    }
  }

  /** `visible` after construction: true exactly in modal mode. */
  function InitiallyVisible(options: Options): (v: bool)
    ensures v <==> options.mode == Some(Modal)
  {
    options.mode == Some(Modal)
  }
}
