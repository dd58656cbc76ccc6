/** The basic-settings step of the cache-creation wizard: ten form fields
    (topology, mode, owners, encoding, statistics, expiration and the two
    expiration values with their units), the handlers that change them, and
    the effect that copies them into the wizard's shared configuration as its
    `basic` section, together with the two feature-validity flags. */
module BasicCacheConfig {
  import opened Js

  /** Cache topology. Only the first two are chosen by this form; any other
      value can still arrive from the wizard's configuration. */
  datatype CacheType = Distributed | Replicated | OtherCacheType(name: string)

  datatype CacheMode = Sync | Async

  /** Encoding type: `Empty` and `Unknown` are placeholders, every other
      member is a media type the user may choose. */
  datatype Encoding = Empty | Unknown | MediaType(name: string)

  /** The wizard's `basic` configuration section. */
  datatype BasicConfig = BasicConfig(
    topology: CacheType,
    mode: CacheMode,
    numberOfOwners: MaybeNum,
    encoding: Encoding,
    statistics: bool,
    expiration: bool,
    lifeSpanNumber: Num,
    lifeSpanUnit: string,
    maxIdleNumber: Num,
    maxIdleUnit: string,
    valid: bool)

  /** Settings of a feature entry other than its `valid` flag. */
  type FeatureSettings(==)
  /** Feature entries other than the indexed and transactional ones. */
  type OtherFeatures(==)
  /** Sections of the wizard's configuration other than `basic` and `feature`. */
  type OtherSections(==)

  datatype FeatureEntry = FeatureEntry(valid: bool, settings: FeatureSettings)

  datatype Features = Features(
    indexedCache: FeatureEntry,
    transactionalCache: FeatureEntry,
    otherFeatures: OtherFeatures)

  /** The wizard's shared configuration object. */
  datatype Configuration = Configuration(
    basic: BasicConfig,
    feature: Features,
    otherSections: OtherSections)

  /** The form's ten state variables. */
  datatype Fields = Fields(
    topology: CacheType,
    mode: CacheMode,
    owners: MaybeNum,
    encoding: Encoding,
    statistics: bool,
    expiration: bool,
    lifeSpanNumber: Num,
    lifeSpanUnit: string,
    maxIdleNumber: Num,
    maxIdleUnit: string)

  const MinOwners: int := 1
  const MaxOwners: int := 10

  /** The form state on mount: every field read from the `basic` section. */
  function FieldsOf(b: BasicConfig): (f: Fields)
    ensures f.owners == b.numberOfOwners
    ensures f.lifeSpanNumber == b.lifeSpanNumber && f.maxIdleNumber == b.maxIdleNumber
  {
    Fields(b.topology, b.mode, b.numberOfOwners, b.encoding, b.statistics, b.expiration,
           b.lifeSpanNumber, b.lifeSpanUnit, b.maxIdleNumber, b.maxIdleUnit)
  }

  /** The owner count stored by a direct entry: NaN reads as 0, then the
      value is clamped to [MinOwners, MaxOwners]. */
  function OwnersFromEntry(entry: Num): (r: int)
    ensures MinOwners <= r <= MaxOwners
    ensures entry.NaN? ==> r == MinOwners
    ensures entry.Int? && MinOwners <= entry.value <= MaxOwners ==> r == entry.value
    ensures entry.Int? && entry.value < MinOwners ==> r == MinOwners
    ensures entry.Int? && entry.value > MaxOwners ==> r == MaxOwners
  {
    var v := if entry.NaN? then 0 else entry.value;
    if v > MaxOwners then MaxOwners else if v < MinOwners then MinOwners else v
  }

  /** The owner count after a stepper click of `delta` (+1 or -1): applied
      only when the count is truthy, never clamped. */
  function Stepped(owners: MaybeNum, delta: int): (r: MaybeNum)
    ensures Truthy(owners) ==> r == Defined(owners.n + delta)
    ensures !Truthy(owners) ==> r == owners
  {
    if Truthy(owners) then Defined(owners.n + delta) else owners
  }

  /** Inline validation state of an input. */
  datatype Validated = Default | Error

  /** `'error'` unless the lifespan is at least -1 (NaN is an error). */
  function ValidateLifeSpan(f: Fields): (v: Validated)
    ensures v == Default <==> AtLeast(f.lifeSpanNumber, -1)
  {
    if AtLeast(f.lifeSpanNumber, -1) then Default else Error
  }

  /** `'error'` unless the max-idle time is at least -1 (NaN is an error). */
  function ValidateMaxIdle(f: Fields): (v: Validated)
    ensures v == Default <==> AtLeast(f.maxIdleNumber, -1)
  {
    if AtLeast(f.maxIdleNumber, -1) then Default else Error
  }

  /** The `basic` section the effect writes for the current fields. */
  function BasicOf(f: Fields): (b: BasicConfig)
    ensures f.topology == Distributed ==> b.numberOfOwners == f.owners
    ensures f.topology != Distributed ==> b.numberOfOwners == Undefined
    ensures b.valid <==> AtLeast(f.lifeSpanNumber, -1) && AtLeast(f.maxIdleNumber, -1)
    ensures FieldsOf(b) == f.(owners := b.numberOfOwners)
  {
    BasicConfig(
      f.topology, f.mode,
      if f.topology == Distributed then f.owners else Undefined,
      f.encoding, f.statistics, f.expiration,
      f.lifeSpanNumber, f.lifeSpanUnit, f.maxIdleNumber, f.maxIdleUnit,
      f.lifeSpanNumber.Int? && f.lifeSpanNumber.value >= -1 &&
      f.maxIdleNumber.Int? && f.maxIdleNumber.value >= -1)
  }

  /** The effect's state updater: `prev` is the configuration the updater
      receives, `captured` the one the render saw, which the two feature
      validators are given. Replaces `basic` and the `valid` flag of the
      indexed and transactional feature entries; keeps everything else. */
  function Derive(prev: Configuration, captured: Configuration, f: Fields,
                  indexedOk: (Configuration, Encoding) -> bool,
                  transactionalOk: (Configuration, CacheMode) -> bool): (r: Configuration)
    ensures r.basic == BasicOf(f)
    ensures r.feature.indexedCache.valid == indexedOk(captured, f.encoding)
    ensures r.feature.transactionalCache.valid == transactionalOk(captured, f.mode)
    ensures r.feature.indexedCache.settings == prev.feature.indexedCache.settings
    ensures r.feature.transactionalCache.settings == prev.feature.transactionalCache.settings
    ensures r.feature.otherFeatures == prev.feature.otherFeatures
    ensures r.otherSections == prev.otherSections
  {
    prev.(
      basic := BasicOf(f),
      feature := prev.feature.(
        indexedCache := prev.feature.indexedCache.(valid := indexedOk(captured, f.encoding)),
        transactionalCache := prev.feature.transactionalCache.(valid := transactionalOk(captured, f.mode))))
  }

  /** The derived `valid` flag is the conjunction of the two inline validators. */
  lemma DeriveValidMatchesValidators(prev: Configuration, captured: Configuration, f: Fields,
                                     indexedOk: (Configuration, Encoding) -> bool,
                                     transactionalOk: (Configuration, CacheMode) -> bool)
    ensures Derive(prev, captured, f, indexedOk, transactionalOk).basic.valid
            <==> ValidateLifeSpan(f) == Default && ValidateMaxIdle(f) == Default
  {
  }

  /** The derived `valid` flag does not depend on the expiration switch, and
      an unreadable (NaN) lifespan or max-idle entry makes it false. */
  lemma DeriveValidIgnoresExpiration(f: Fields)
    ensures BasicOf(f.(expiration := !f.expiration)).valid == BasicOf(f).valid
    ensures f.lifeSpanNumber.NaN? || f.maxIdleNumber.NaN? ==> !BasicOf(f).valid
  {
  }

  /** On integers, each validator reports an error exactly below -1. */
  lemma ValidatorsOnIntegers(f: Fields, n: int)
    ensures ValidateLifeSpan(f.(lifeSpanNumber := Int(n))) == Error <==> n < -1
    ensures ValidateMaxIdle(f.(maxIdleNumber := Int(n))) == Error <==> n < -1
    ensures ValidateLifeSpan(f.(lifeSpanNumber := NaN)) == Error
    ensures ValidateMaxIdle(f.(maxIdleNumber := NaN)) == Error
  {
  }

  /** Running the updater again with the same render-time configuration and
      fields changes nothing. */
  lemma DeriveIdempotent(prev: Configuration, captured: Configuration, f: Fields,
                         indexedOk: (Configuration, Encoding) -> bool,
                         transactionalOk: (Configuration, CacheMode) -> bool)
    ensures var once := Derive(prev, captured, f, indexedOk, transactionalOk);
            Derive(once, captured, f, indexedOk, transactionalOk) == once
  {
  }

  /** Mounting the form again on the section it wrote restores the fields;
      off the Distributed topology, only the owner count is lost. */
  lemma RemountRestoresFields(f: Fields)
    ensures f.topology == Distributed ==> FieldsOf(BasicOf(f)) == f
    ensures f.topology != Distributed ==> FieldsOf(BasicOf(f)) == f.(owners := Undefined)
  {
  }

  /** The encoding select's children: one entry per encoding, `undefined`
      (None) for the two placeholders. */
  function EncodingTypeOptions(encodings: seq<Encoding>): (r: seq<Option<Encoding>>)
    ensures |r| == |encodings|
    ensures forall i :: 0 <= i < |r| ==>
              (r[i] == None <==> encodings[i] == Empty || encodings[i] == Unknown)
    ensures forall i :: 0 <= i < |r| && r[i].Some? ==> r[i].value == encodings[i]
  {
    if encodings == [] then []
    else
      var e := encodings[0];
      [if e == Empty || e == Unknown then None else Some(e)] + EncodingTypeOptions(encodings[1..])
  }

  /** The options actually rendered: React skips the `undefined` children,
      so these are the values of the defined children. */
  function Rendered(children: seq<Option<Encoding>>): (r: seq<Encoding>)
    ensures |r| <= |children|
    ensures forall e :: e in r <==> Some(e) in children
  {
    if children == [] then []
    else (if children[0].Some? then [children[0].value] else []) + Rendered(children[1..])
  }

  /** Rendering keeps the order of the children: the rendered options of
      two consecutive runs of children are those of the first run followed
      by those of the second. With `Rendered([Some(e)]) == [e]` and
      `Rendered([None]) == []` this determines the rendered sequence. */
  lemma {:induction false} RenderedAppend(a: seq<Option<Encoding>>, b: seq<Option<Encoding>>)
    ensures Rendered(a + b) == Rendered(a) + Rendered(b)
  {
    if a != [] {
      RenderedAppend(a[1..], b);
      assert (a + b)[1..] == a[1..] + b;
    } else {
      assert a + b == b;
    }
  }

  /** The encodings offered are exactly the encoding values other than
      Empty and Unknown. */
  lemma OfferedEncodings(encodings: seq<Encoding>, e: Encoding)
    ensures e in Rendered(EncodingTypeOptions(encodings))
            <==> e in encodings && e != Empty && e != Unknown
  {
    var children := EncodingTypeOptions(encodings);
    if e in encodings && e != Empty && e != Unknown {
      var i :| 0 <= i < |encodings| && encodings[i] == e;
      assert children[i] == Some(e);
    }
  }

  /** The form component. `configuration` is the wizard's shared object;
      `lastEffectDeps` holds the fields the effect last ran with (None
      before the first render), so that the effect runs only when one of
      them changed. */
  class BasicCacheConfigForm {
    var fields: Fields
    var configuration: Configuration
    var lastEffectDeps: Option<Fields>
    const indexedOk: (Configuration, Encoding) -> bool
    const transactionalOk: (Configuration, CacheMode) -> bool

    /** Mount: the fields start from the wizard's `basic` section. */
    constructor (config: Configuration,
                 indexedOk: (Configuration, Encoding) -> bool,
                 transactionalOk: (Configuration, CacheMode) -> bool)
      ensures fields == FieldsOf(config.basic) && configuration == config
      ensures lastEffectDeps == None
      ensures this.indexedOk == indexedOk && this.transactionalOk == transactionalOk
    {
      fields := FieldsOf(config.basic);
      configuration := config;
      lastEffectDeps := None;
      this.indexedOk := indexedOk;
      this.transactionalOk := transactionalOk;
    }

    /** The stepper's minus button. */
    method OnMinus()
      modifies this`fields
      ensures fields == old(fields).(owners := Stepped(old(fields).owners, -1))
    {
      if Truthy(fields.owners) {
        fields := fields.(owners := Defined(fields.owners.n - 1));
      }
    }

    /** The stepper's plus button. */
    method OnPlus()
      modifies this`fields
      ensures fields == old(fields).(owners := Stepped(old(fields).owners, 1))
    {
      if Truthy(fields.owners) {
        fields := fields.(owners := Defined(fields.owners.n + 1));
      }
    }

    /** Direct entry of the owner count; `entry` is `Number` of the text. */
    method OnOwnersChange(entry: Num)
      modifies this`fields
      ensures fields == old(fields).(owners := Defined(OwnersFromEntry(entry)))
    {
      var newValue := if entry.NaN? then 0 else entry.value;
      var clamped := if newValue > MaxOwners then MaxOwners
                     else if newValue < MinOwners then MinOwners else newValue;
      fields := fields.(owners := Defined(clamped));
    }

    /** The Distributed radio: also resets the owner count to 1. */
    method OnChooseDistributed()
      modifies this`fields
      ensures fields == old(fields).(topology := Distributed, owners := Defined(1))
    {
      fields := fields.(topology := Distributed, owners := Defined(1));
    }

    /** The Replicated radio: changes the topology only. */
    method OnChooseReplicated()
      modifies this`fields
      ensures fields == old(fields).(topology := Replicated)
    {
      fields := fields.(topology := Replicated);
    }

    method OnChooseSync()
      modifies this`fields
      ensures fields == old(fields).(mode := Sync)
    {
      fields := fields.(mode := Sync);
    }

    method OnChooseAsync()
      modifies this`fields
      ensures fields == old(fields).(mode := Async)
    {
      fields := fields.(mode := Async);
    }

    method OnSelectEncoding(selection: Encoding)
      modifies this`fields
      ensures fields == old(fields).(encoding := selection)
    {
      fields := fields.(encoding := selection);
    }

    method OnToggleStatistics()
      modifies this`fields
      ensures fields == old(fields).(statistics := !old(fields).statistics)
    {
      fields := fields.(statistics := !fields.statistics);
    }

    method OnToggleExpiration()
      modifies this`fields
      ensures fields == old(fields).(expiration := !old(fields).expiration)
    {
      fields := fields.(expiration := !fields.expiration);
    }

    /** Lifespan entry; `parsed` is `parseInt` of the text. */
    method OnLifeSpanChange(parsed: Num)
      modifies this`fields
      ensures fields == old(fields).(lifeSpanNumber := parsed)
    {
      fields := fields.(lifeSpanNumber := parsed);
    }

    method OnSelectLifeSpanUnit(unit: string)
      modifies this`fields
      ensures fields == old(fields).(lifeSpanUnit := unit)
    {
      fields := fields.(lifeSpanUnit := unit);
    }

    /** Max-idle entry; `parsed` is `parseInt` of the text. */
    method OnMaxIdleChange(parsed: Num)
      modifies this`fields
      ensures fields == old(fields).(maxIdleNumber := parsed)
    {
      fields := fields.(maxIdleNumber := parsed);
    }

    method OnSelectMaxIdleUnit(unit: string)
      modifies this`fields
      ensures fields == old(fields).(maxIdleUnit := unit)
    {
      fields := fields.(maxIdleUnit := unit);
    }

    /** The effect after a render: when some field differs from the last
        run (or on the first render), the configuration is re-derived;
        afterwards its `basic` section reflects the current fields. */
    method AfterRender()
      modifies this`configuration, this`lastEffectDeps
      ensures lastEffectDeps == Some(fields)
      ensures old(lastEffectDeps) == Some(fields) ==> configuration == old(configuration)
      ensures old(lastEffectDeps) != Some(fields) ==>
                configuration == Derive(old(configuration), old(configuration), fields,
                                        indexedOk, transactionalOk)
      ensures old(lastEffectDeps) != Some(fields) ==> configuration.basic == BasicOf(fields)
    {
      if lastEffectDeps != Some(fields) {
        var captured := configuration;
        configuration := Derive(configuration, captured, fields, indexedOk, transactionalOk);
        lastEffectDeps := Some(fields);
      }
    }
  }

  /** The steppers do not clamp: plus at the maximum stores 11. */
  method PlusAtMaximum(config: Configuration,
                       indexedOk: (Configuration, Encoding) -> bool,
                       transactionalOk: (Configuration, CacheMode) -> bool)
    returns (owners: MaybeNum)
    requires config.basic.numberOfOwners == Defined(MaxOwners)
    ensures owners == Defined(MaxOwners + 1)
  {
    var form := new BasicCacheConfigForm(config, indexedOk, transactionalOk);
    form.OnPlus();
    owners := form.fields.owners;
  }

  /** A configuration mounted off the Distributed topology has no owner
      count, so both steppers do nothing until Distributed is chosen, which
      sets the count to 1. */
  method SteppersAfterReplicated(config: Configuration,
                                 indexedOk: (Configuration, Encoding) -> bool,
                                 transactionalOk: (Configuration, CacheMode) -> bool)
    returns (before: MaybeNum, after: MaybeNum)
    requires config.basic.numberOfOwners == Undefined
    ensures before == Undefined && after == Defined(2)
  {
    var form := new BasicCacheConfigForm(config, indexedOk, transactionalOk);
    form.OnPlus();
    form.OnMinus();
    before := form.fields.owners;
    form.OnChooseDistributed();
    form.OnPlus();
    after := form.fields.owners;
  }
}
