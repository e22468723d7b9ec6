/** The configuration generator: resource-name tables per business domain
    and environment, and the configuration document that tells every DR
    driver which resources to act on for a failover or a failback. */
module BuildConfig {
  import opened Common

  /** The six domains in the order the generator lists them. */
  const OrderedDomains: seq<string> := ["Sales", "Finance", "Customer", "Accounting", "Nonedw", "Associates"]

  /** Data factories and resource groups exist for Retail as well. */
  const AdfDomains: seq<string> := OrderedDomains + ["Retail"]

  /** Each table entry has one name per environment tag. */
  const Tags: set<string> := {"qa", "prod", "DR"}

  /** The five tables of `create_maps`; the pools, which the batch table
      keeps as a nested table under the key "pool", are a sixth. */
  datatype Table = RgTable | AdfTable | BatchTable | PoolTable | StorageTable | KvTable

  /** The domains a table has entries for: resource groups and factories
      include Retail, the other tables do not. */
  function TableDomains(t: Table): seq<string> {
    if t == RgTable || t == AdfTable then AdfDomains else OrderedDomains
  }

  /** The name every entry of a table follows, e.g. `qaSalesRG`,
      `DRSalesADF`, `prodBatchSales`, `qapoolBatchSales`, `DRStorageSales`,
      `qaKvSales`. */
  function NameIn(t: Table, d: string, tag: string): string {
    match t
    case RgTable => tag + d + "RG"
    case AdfTable => tag + d + "ADF"
    case BatchTable => tag + "Batch" + d
    case PoolTable => tag + "poolBatch" + d
    case StorageTable => tag + "Storage" + d
    case KvTable => tag + "Kv" + d
  }

  /** `table[d][tag]`, a KeyError when either key is missing. */
  function Lookup(t: Table, d: string, tag: string): (r: Result<string>)
    ensures r.Ok? <==> d in TableDomains(t) && tag in Tags
    ensures r.Ok? ==> r.value == NameIn(t, d, tag)
    ensures r.Err? ==> r.error == KeyError
  {
    if d in TableDomains(t) && tag in Tags then Ok(NameIn(t, d, tag)) else Err(KeyError)
  }

  datatype AdfRef = AdfRef(resourceGroup: string, adf: string)
  datatype StorageRef = StorageRef(resourceGroup: string, storage: string)
  datatype BatchRef = BatchRef(resourceGroup: string, batch: string, pool: string)
  datatype KvRef = KvRef(resourceGroup: string, kv: string)
  /** A storage side as the storage-sync driver reads it; the generator
      always writes the account name. */
  datatype StgRef = StgRef(resourceGroup: string, stg: Option<string>)

  datatype ScalePair = ScalePair(scaleUp: BatchRef, scaleDown: BatchRef)
  datatype TriggerPair = TriggerPair(start: AdfRef, stop: AdfRef)
  datatype KvSyncPair = KvSyncPair(from: KvRef, to: KvRef)
  /** `from` and `to` may be missing in a hand-written document. */
  datatype StgSyncPair = StgSyncPair(from: Option<StgRef>, to: Option<StgRef>)

  datatype ConfigBlock = ConfigBlock(
    mode: string, storage: bool, snowflake: bool, azure: bool, domain: string, environment: string)

  /** The configuration document; a section is absent, one mapping, or a
      list of mappings. */
  datatype Document = Document(
    config: Option<ConfigBlock>,
    storageGRS: Option<OneOrMany<StorageRef>>,
    linkedServiceFqdn: Option<OneOrMany<AdfRef>>,
    batchAccountScale: Option<OneOrMany<ScalePair>>,
    adfTrigger: Option<OneOrMany<TriggerPair>>,
    kvSync: Option<OneOrMany<KvSyncPair>>,
    stgSync: Option<OneOrMany<StgSyncPair>>)

  function AdfAt(d: string, tag: string): Result<AdfRef> {
    var rg :- Lookup(RgTable, d, tag);
    var adf :- Lookup(AdfTable, d, tag);
    Ok(AdfRef(rg, adf))
  }

  function BatchAt(d: string, tag: string): Result<BatchRef> {
    var rg :- Lookup(RgTable, d, tag);
    var batch :- Lookup(BatchTable, d, tag);
    var pool :- Lookup(PoolTable, d, tag);
    Ok(BatchRef(rg, batch, pool))
  }

  function StorageEntry(d: string, env: string): Result<StorageRef> {
    var rg :- Lookup(RgTable, d, env);
    var st :- Lookup(StorageTable, d, env);
    Ok(StorageRef(rg, st))
  }

  function ScaleEntry(d: string, up: string, down: string): Result<ScalePair> {
    var u :- BatchAt(d, up);
    var w :- BatchAt(d, down);
    Ok(ScalePair(u, w))
  }

  function TriggerEntry(d: string, start: string, stop: string): Result<TriggerPair> {
    var s :- AdfAt(d, start);
    var t :- AdfAt(d, stop);
    Ok(TriggerPair(s, t))
  }

  function KvAt(d: string, tag: string): Result<KvRef> {
    var rg :- Lookup(RgTable, d, tag);
    var kv :- Lookup(KvTable, d, tag);
    Ok(KvRef(rg, kv))
  }

  function KvEntry(d: string, env: string): Result<KvSyncPair> {
    var f :- KvAt(d, env);
    var t :- KvAt(d, "DR");
    Ok(KvSyncPair(f, t))
  }

  function StgAt(d: string, tag: string): Result<StgRef> {
    var rg :- Lookup(RgTable, d, tag);
    var st :- Lookup(StorageTable, d, tag);
    Ok(StgRef(rg, Some(st)))
  }

  function StgEntry(d: string, env: string): Result<StgSyncPair> {
    var f :- StgAt(d, env);
    var t :- StgAt(d, "DR");
    Ok(StgSyncPair(Some(f), Some(t)))
  }

  /** The per-domain entry builders, as values the section builder maps
      over the domains. */
  function StorageFor(env: string): string -> Result<StorageRef> { d => StorageEntry(d, env) }
  function FqdnFor(tag: string): string -> Result<AdfRef> { d => AdfAt(d, tag) }
  function ScaleFor(up: string, down: string): string -> Result<ScalePair> { d => ScaleEntry(d, up, down) }
  function TriggerFor(start: string, stop: string): string -> Result<TriggerPair> { d => TriggerEntry(d, start, stop) }
  function KvFor(env: string): string -> Result<KvSyncPair> { d => KvEntry(d, env) }
  function StgFor(env: string): string -> Result<StgSyncPair> { d => StgEntry(d, env) }

  /** The environment tags of the side that comes up, the side that goes
      down, and the factory whose linked services are rewritten. */
  function UpTag(mode: string, env: string): string { if mode == "failover" then "DR" else env }
  function DownTag(mode: string, env: string): string { if mode == "failover" then env else "DR" }
  function FqdnTag(mode: string, azure: bool, env: string): string {
    if mode == "failover" && azure then "DR" else env
  }

  /** The list comprehension over the domains: one entry per domain, in
      order; a missing table entry raises KeyError (the only error an entry
      can raise). */
  function Each<T>(ds: seq<string>, entry: string -> Result<T>): (r: Result<seq<T>>)
    ensures r.Ok? ==> |r.value| == |ds| && forall i :: 0 <= i < |ds| ==> entry(ds[i]) == Ok(r.value[i])
    ensures r.Err? <==> exists i :: 0 <= i < |ds| && entry(ds[i]).Err?
  {
    if forall i :: 0 <= i < |ds| ==> entry(ds[i]).Ok? then
      Ok(seq(|ds|, i requires 0 <= i < |ds| => entry(ds[i]).value))
    else
      Err(KeyError)
  }

  /** A section of the document: absent when its flag is off, a list over
      `all` in "All" mode, a single mapping for one domain. */
  function Section<T>(flag: bool, domain: string, all: seq<string>, entry: string -> Result<T>)
    : Result<Option<OneOrMany<T>>>
  {
    if !flag then Ok(None)
    else if domain == "All" then
      var xs :- Each(all, entry);
      Ok(Some(Many(xs)))
    else
      var x :- entry(domain);
      Ok(Some(One(x)))
  }

  /** `generate_json`. A non-empty customer document is returned as it was
      parsed; otherwise the document is built from the tables. In failover
      the DR side is started and scaled up and the environment side stopped
      and scaled down; every other mode is treated as failback. */
  function GenerateJson(
    mode: string, storage: bool, snowflake: bool, azure: bool,
    domain: string, environment: string, customerJson: Option<Document>): Result<Document>
  {
    if customerJson.Some? then Ok(customerJson.value)
    else if domain != "All" && domain == "Retail" then Err(ValueError)
    else Generated(mode, storage, snowflake, azure, domain, environment, Lower(environment))
  }

  /** The generated document; every table is read with the lower-cased
      environment `env`. */
  function Generated(
    mode: string, storage: bool, snowflake: bool, azure: bool,
    domain: string, environment: string, env: string): Result<Document>
  {
    var grs :- Section(storage, domain, OrderedDomains, StorageFor(env));
    var fqdn :- Section(snowflake, domain, AdfDomains, FqdnFor(FqdnTag(mode, azure, env)));
    var scale :- Section(azure, domain, OrderedDomains, ScaleFor(UpTag(mode, env), DownTag(mode, env)));
    var trig :- Section(azure, domain, AdfDomains, TriggerFor(UpTag(mode, env), DownTag(mode, env)));
    var kv :- Section(azure, domain, OrderedDomains, KvFor(env));
    var stg :- Section(azure, domain, OrderedDomains, StgFor(env));
    Ok(Document(Some(ConfigBlock(mode, storage, snowflake, azure, domain, environment)),
                grs, fqdn, scale, trig, kv, stg))
  }

  /** The entries of a section as a list. */
  function Entries<T>(s: OneOrMany<T>): seq<T> {
    match s
    case One(x) => [x]
    case Many(xs) => xs
  }

  /** The domains a section lists, in order. */
  function DomainsOf(domain: string, all: seq<string>): seq<string> {
    if domain == "All" then all else [domain]
  }

  /** A present section holds exactly one entry per listed domain, the
      entry built for that domain. */
  lemma SectionEntries<T>(flag: bool, domain: string, all: seq<string>, entry: string -> Result<T>)
    requires Section(flag, domain, all, entry).Ok?
    ensures Section(flag, domain, all, entry).value.Some? <==> flag
    ensures flag ==>
      var s := Section(flag, domain, all, entry).value.value;
      && (s.Many? <==> domain == "All")
      && |Entries(s)| == |DomainsOf(domain, all)|
      && forall i :: 0 <= i < |Entries(s)| ==> entry(DomainsOf(domain, all)[i]) == Ok(Entries(s)[i])
  {
  }

  /** A generated document, section by section. */
  lemma GenerateJsonParts(
    mode: string, storage: bool, snowflake: bool, azure: bool, domain: string, environment: string)
    requires GenerateJson(mode, storage, snowflake, azure, domain, environment, None).Ok?
    ensures
      var doc := GenerateJson(mode, storage, snowflake, azure, domain, environment, None).value;
      var env := Lower(environment);
      && doc.config == Some(ConfigBlock(mode, storage, snowflake, azure, domain, environment))
      && Section(storage, domain, OrderedDomains, StorageFor(env)) == Ok(doc.storageGRS)
      && Section(snowflake, domain, AdfDomains, FqdnFor(FqdnTag(mode, azure, env))) == Ok(doc.linkedServiceFqdn)
      && Section(azure, domain, OrderedDomains, ScaleFor(UpTag(mode, env), DownTag(mode, env))) == Ok(doc.batchAccountScale)
      && Section(azure, domain, AdfDomains, TriggerFor(UpTag(mode, env), DownTag(mode, env))) == Ok(doc.adfTrigger)
      && Section(azure, domain, OrderedDomains, KvFor(env)) == Ok(doc.kvSync)
      && Section(azure, domain, OrderedDomains, StgFor(env)) == Ok(doc.stgSync)
  {
    GeneratedParts(mode, storage, snowflake, azure, domain, environment, Lower(environment));
  }

  lemma GeneratedParts(
    mode: string, storage: bool, snowflake: bool, azure: bool, domain: string, environment: string, env: string)
    requires Generated(mode, storage, snowflake, azure, domain, environment, env).Ok?
    ensures
      var doc := Generated(mode, storage, snowflake, azure, domain, environment, env).value;
      && doc.config == Some(ConfigBlock(mode, storage, snowflake, azure, domain, environment))
      && Section(storage, domain, OrderedDomains, StorageFor(env)) == Ok(doc.storageGRS)
      && Section(snowflake, domain, AdfDomains, FqdnFor(FqdnTag(mode, azure, env))) == Ok(doc.linkedServiceFqdn)
      && Section(azure, domain, OrderedDomains, ScaleFor(UpTag(mode, env), DownTag(mode, env))) == Ok(doc.batchAccountScale)
      && Section(azure, domain, AdfDomains, TriggerFor(UpTag(mode, env), DownTag(mode, env))) == Ok(doc.adfTrigger)
      && Section(azure, domain, OrderedDomains, KvFor(env)) == Ok(doc.kvSync)
      && Section(azure, domain, OrderedDomains, StgFor(env)) == Ok(doc.stgSync)
  {
  }


  /** The names of one domain's resources on one side of a failover. */
  function AdfSide(d: string, tag: string): AdfRef {
    AdfRef(NameIn(RgTable, d, tag), NameIn(AdfTable, d, tag))
  }

  function BatchSide(d: string, tag: string): BatchRef {
    BatchRef(NameIn(RgTable, d, tag), NameIn(BatchTable, d, tag), NameIn(PoolTable, d, tag))
  }

  function KvSide(d: string, tag: string): KvRef {
    KvRef(NameIn(RgTable, d, tag), NameIn(KvTable, d, tag))
  }

  function StgSide(d: string, tag: string): StgRef {
    StgRef(NameIn(RgTable, d, tag), Some(NameIn(StorageTable, d, tag)))
  }

  /** An entry is built exactly for a domain and tags its tables know, and
      then names that domain's resources on the chosen sides. */
  lemma TriggerEntryNames(d: string, start: string, stop: string)
    ensures TriggerFor(start, stop)(d).Ok? <==> d in AdfDomains && start in Tags && stop in Tags
    ensures TriggerFor(start, stop)(d).Ok? ==>
      TriggerFor(start, stop)(d).value == TriggerPair(AdfSide(d, start), AdfSide(d, stop))
  {
  }

  lemma ScaleEntryNames(d: string, up: string, down: string)
    ensures ScaleFor(up, down)(d).Ok? <==> d in OrderedDomains && up in Tags && down in Tags
    ensures ScaleFor(up, down)(d).Ok? ==>
      ScaleFor(up, down)(d).value == ScalePair(BatchSide(d, up), BatchSide(d, down))
  {
    assert d in OrderedDomains ==> d in AdfDomains;
  }

  lemma KvEntryNames(d: string, env: string)
    ensures KvFor(env)(d).Ok? <==> d in OrderedDomains && env in Tags
    ensures KvFor(env)(d).Ok? ==> KvFor(env)(d).value == KvSyncPair(KvSide(d, env), KvSide(d, "DR"))
  {
    assert d in OrderedDomains ==> d in AdfDomains;
  }

  lemma StgEntryNames(d: string, env: string)
    ensures StgFor(env)(d).Ok? <==> d in OrderedDomains && env in Tags
    ensures StgFor(env)(d).Ok? ==>
      StgFor(env)(d).value == StgSyncPair(Some(StgSide(d, env)), Some(StgSide(d, "DR")))
  {
    assert d in OrderedDomains ==> d in AdfDomains;
  }

  lemma StorageEntryNames(d: string, env: string)
    ensures StorageFor(env)(d).Ok? <==> d in OrderedDomains && env in Tags
    ensures StorageFor(env)(d).Ok? ==>
      StorageFor(env)(d).value == StorageRef(NameIn(RgTable, d, env), NameIn(StorageTable, d, env))
  {
    assert d in OrderedDomains ==> d in AdfDomains;
  }

  lemma FqdnEntryNames(d: string, tag: string)
    ensures FqdnFor(tag)(d).Ok? <==> d in AdfDomains && tag in Tags
    ensures FqdnFor(tag)(d).Ok? ==> FqdnFor(tag)(d).value == AdfSide(d, tag)
  {
  }

  /** Triggers are started on the side that takes over and stopped on the
      side that steps down: in failover the DR factory is started and the
      environment's factory stopped; in any other mode the reverse. */
  lemma TriggersFollowMode(
    mode: string, storage: bool, snowflake: bool, azure: bool, domain: string, environment: string)
    requires GenerateJson(mode, storage, snowflake, azure, domain, environment, None).Ok?
    requires azure
    ensures
      var doc := GenerateJson(mode, storage, snowflake, azure, domain, environment, None).value;
      var up := UpTag(mode, Lower(environment));
      var down := DownTag(mode, Lower(environment));
      var ds := DomainsOf(domain, AdfDomains);
      && doc.adfTrigger.Some?
      && |Entries(doc.adfTrigger.value)| == |ds|
      && (forall i :: 0 <= i < |ds| ==>
            Entries(doc.adfTrigger.value)[i] == TriggerPair(AdfSide(ds[i], up), AdfSide(ds[i], down)))
  {
    var doc := GenerateJson(mode, storage, snowflake, azure, domain, environment, None).value;
    var env := Lower(environment);
    var up, down := UpTag(mode, env), DownTag(mode, env);
    GenerateJsonParts(mode, storage, snowflake, azure, domain, environment);
    SectionEntries(azure, domain, AdfDomains, TriggerFor(up, down));
    TriggerListNames(DomainsOf(domain, AdfDomains), up, down, Entries(doc.adfTrigger.value));
  }

  lemma TriggerListNames(ds: seq<string>, up: string, down: string, ts: seq<TriggerPair>)
    requires |ts| == |ds|
    requires forall i :: 0 <= i < |ds| ==> TriggerFor(up, down)(ds[i]) == Ok(ts[i])
    ensures forall i :: 0 <= i < |ds| ==> ts[i] == TriggerPair(AdfSide(ds[i], up), AdfSide(ds[i], down))
  {
    forall i | 0 <= i < |ds| ensures ts[i] == TriggerPair(AdfSide(ds[i], up), AdfSide(ds[i], down)) {
      TriggerEntryNames(ds[i], up, down);
    }
  }

  /** The batch pools are scaled the same way: in failover the DR pool is
      scaled up and the environment's pool down; otherwise the reverse. */
  lemma PoolsFollowMode(
    mode: string, storage: bool, snowflake: bool, azure: bool, domain: string, environment: string)
    requires GenerateJson(mode, storage, snowflake, azure, domain, environment, None).Ok?
    requires azure
    ensures
      var doc := GenerateJson(mode, storage, snowflake, azure, domain, environment, None).value;
      var up := UpTag(mode, Lower(environment));
      var down := DownTag(mode, Lower(environment));
      var bs := DomainsOf(domain, OrderedDomains);
      && doc.batchAccountScale.Some?
      && |Entries(doc.batchAccountScale.value)| == |bs|
      && (forall i :: 0 <= i < |bs| ==>
            Entries(doc.batchAccountScale.value)[i] == ScalePair(BatchSide(bs[i], up), BatchSide(bs[i], down)))
  {
    var doc := GenerateJson(mode, storage, snowflake, azure, domain, environment, None).value;
    var env := Lower(environment);
    var up, down := UpTag(mode, env), DownTag(mode, env);
    GenerateJsonParts(mode, storage, snowflake, azure, domain, environment);
    SectionEntries(azure, domain, OrderedDomains, ScaleFor(up, down));
    ScaleListNames(DomainsOf(domain, OrderedDomains), up, down, Entries(doc.batchAccountScale.value));
  }

  lemma ScaleListNames(bs: seq<string>, up: string, down: string, ss: seq<ScalePair>)
    requires |ss| == |bs|
    requires forall i :: 0 <= i < |bs| ==> ScaleFor(up, down)(bs[i]) == Ok(ss[i])
    ensures forall i :: 0 <= i < |bs| ==> ss[i] == ScalePair(BatchSide(bs[i], up), BatchSide(bs[i], down))
  {
    forall i | 0 <= i < |bs| ensures ss[i] == ScalePair(BatchSide(bs[i], up), BatchSide(bs[i], down)) {
      ScaleEntryNames(bs[i], up, down);
    }
  }

  /** The key-vault and storage copies always run from the environment side
      to DR, whatever the mode. */
  lemma SyncRunsTowardDR(
    mode: string, storage: bool, snowflake: bool, azure: bool, domain: string, environment: string)
    requires GenerateJson(mode, storage, snowflake, azure, domain, environment, None).Ok?
    requires azure
    ensures
      var doc := GenerateJson(mode, storage, snowflake, azure, domain, environment, None).value;
      var env := Lower(environment);
      var bs := DomainsOf(domain, OrderedDomains);
      && doc.kvSync.Some? && doc.stgSync.Some?
      && |Entries(doc.kvSync.value)| == |bs| && |Entries(doc.stgSync.value)| == |bs|
      && (forall i :: 0 <= i < |bs| ==>
            && Entries(doc.kvSync.value)[i] == KvSyncPair(KvSide(bs[i], env), KvSide(bs[i], "DR"))
            && Entries(doc.stgSync.value)[i] == StgSyncPair(Some(StgSide(bs[i], env)), Some(StgSide(bs[i], "DR"))))
  {
    var doc := GenerateJson(mode, storage, snowflake, azure, domain, environment, None).value;
    var env := Lower(environment);
    GenerateJsonParts(mode, storage, snowflake, azure, domain, environment);
    var bs := DomainsOf(domain, OrderedDomains);
    SectionEntries(azure, domain, OrderedDomains, KvFor(env));
    SectionEntries(azure, domain, OrderedDomains, StgFor(env));
    SyncListNames(bs, env, Entries(doc.kvSync.value), Entries(doc.stgSync.value));
  }

  lemma SyncListNames(bs: seq<string>, env: string, ks: seq<KvSyncPair>, gs: seq<StgSyncPair>)
    requires |ks| == |bs| && |gs| == |bs|
    requires forall i :: 0 <= i < |bs| ==> KvFor(env)(bs[i]) == Ok(ks[i])
    requires forall i :: 0 <= i < |bs| ==> StgFor(env)(bs[i]) == Ok(gs[i])
    ensures forall i :: 0 <= i < |bs| ==>
      && ks[i] == KvSyncPair(KvSide(bs[i], env), KvSide(bs[i], "DR"))
      && gs[i] == StgSyncPair(Some(StgSide(bs[i], env)), Some(StgSide(bs[i], "DR")))
  {
    forall i | 0 <= i < |bs|
      ensures ks[i] == KvSyncPair(KvSide(bs[i], env), KvSide(bs[i], "DR"))
      ensures gs[i] == StgSyncPair(Some(StgSide(bs[i], env)), Some(StgSide(bs[i], "DR")))
    {
      KvEntryNames(bs[i], env);
      StgEntryNames(bs[i], env);
    }
  }

  /** The linked-service rewrite targets the DR factory only in a failover
      where Azure itself is down; otherwise the environment's factory. */
  lemma FqdnTargetsFactory(
    mode: string, storage: bool, snowflake: bool, azure: bool, domain: string, environment: string)
    requires GenerateJson(mode, storage, snowflake, azure, domain, environment, None).Ok?
    requires snowflake
    ensures
      var doc := GenerateJson(mode, storage, snowflake, azure, domain, environment, None).value;
      var tag := FqdnTag(mode, azure, Lower(environment));
      var ds := DomainsOf(domain, AdfDomains);
      && doc.linkedServiceFqdn.Some?
      && |Entries(doc.linkedServiceFqdn.value)| == |ds|
      && (forall i :: 0 <= i < |ds| ==> Entries(doc.linkedServiceFqdn.value)[i] == AdfSide(ds[i], tag))
  {
    var doc := GenerateJson(mode, storage, snowflake, azure, domain, environment, None).value;
    var tag := FqdnTag(mode, azure, Lower(environment));
    GenerateJsonParts(mode, storage, snowflake, azure, domain, environment);
    SectionEntries(snowflake, domain, AdfDomains, FqdnFor(tag));
    FqdnListNames(DomainsOf(domain, AdfDomains), tag, Entries(doc.linkedServiceFqdn.value));
  }

  lemma FqdnListNames(ds: seq<string>, tag: string, fs: seq<AdfRef>)
    requires |fs| == |ds|
    requires forall i :: 0 <= i < |ds| ==> FqdnFor(tag)(ds[i]) == Ok(fs[i])
    ensures forall i :: 0 <= i < |ds| ==> fs[i] == AdfSide(ds[i], tag)
  {
    forall i | 0 <= i < |ds| ensures fs[i] == AdfSide(ds[i], tag) {
      FqdnEntryNames(ds[i], tag);
    }
  }

  /** The document records its inputs, holds exactly the sections whose
      flags are set, and lists them (six or seven domains) in "All" mode. */
  lemma SectionsFollowFlags(
    mode: string, storage: bool, snowflake: bool, azure: bool, domain: string, environment: string)
    requires GenerateJson(mode, storage, snowflake, azure, domain, environment, None).Ok?
    ensures
      var doc := GenerateJson(mode, storage, snowflake, azure, domain, environment, None).value;
      && doc.config == Some(ConfigBlock(mode, storage, snowflake, azure, domain, environment))
      && (doc.storageGRS.Some? <==> storage)
      && (doc.linkedServiceFqdn.Some? <==> snowflake)
      && (doc.batchAccountScale.Some? <==> azure)
      && (doc.adfTrigger.Some? <==> azure)
      && (doc.kvSync.Some? <==> azure)
      && (doc.stgSync.Some? <==> azure)
      && (azure ==> (doc.stgSync.value.Many? <==> domain == "All") && (doc.adfTrigger.value.Many? <==> domain == "All"))
      && (domain == "All" && azure ==> |Entries(doc.stgSync.value)| == 6 && |Entries(doc.adfTrigger.value)| == 7)
  {
    var env := Lower(environment);
    var up, down := UpTag(mode, env), DownTag(mode, env);
    GenerateJsonParts(mode, storage, snowflake, azure, domain, environment);
    SectionEntries(storage, domain, OrderedDomains, StorageFor(env));
    SectionEntries(snowflake, domain, AdfDomains, FqdnFor(FqdnTag(mode, azure, env)));
    SectionEntries(azure, domain, OrderedDomains, ScaleFor(up, down));
    SectionEntries(azure, domain, AdfDomains, TriggerFor(up, down));
    SectionEntries(azure, domain, OrderedDomains, KvFor(env));
    SectionEntries(azure, domain, OrderedDomains, StgFor(env));
  }

  /** A section is produced when the entry of every domain it may list is. */
  lemma SectionOk<T>(flag: bool, domain: string, all: seq<string>, entry: string -> Result<T>)
    requires domain == "All" || domain in all
    requires forall d :: d in all ==> entry(d).Ok?
    ensures Section(flag, domain, all, entry).Ok?
  {
    forall i | 0 <= i < |all| ensures entry(all[i]).Ok? {
      assert all[i] in all;
    }
  }

  /** Every section the command line can ask for is produced. */
  lemma SectionsBuild(mode: string, storage: bool, snowflake: bool, azure: bool, domain: string, env: string)
    requires domain == "All" || domain in OrderedDomains
    requires env in Tags
    ensures Section(storage, domain, OrderedDomains, StorageFor(env)).Ok?
    ensures Section(snowflake, domain, AdfDomains, FqdnFor(FqdnTag(mode, azure, env))).Ok?
    ensures Section(azure, domain, OrderedDomains, ScaleFor(UpTag(mode, env), DownTag(mode, env))).Ok?
    ensures Section(azure, domain, AdfDomains, TriggerFor(UpTag(mode, env), DownTag(mode, env))).Ok?
    ensures Section(azure, domain, OrderedDomains, KvFor(env)).Ok?
    ensures Section(azure, domain, OrderedDomains, StgFor(env)).Ok?
  {
    var up, down, fq := UpTag(mode, env), DownTag(mode, env), FqdnTag(mode, azure, env);
    assert domain != "All" ==> domain in AdfDomains;
    forall d | d in OrderedDomains ensures StorageFor(env)(d).Ok? { StorageEntryNames(d, env); }
    SectionOk(storage, domain, OrderedDomains, StorageFor(env));
    forall d | d in AdfDomains ensures FqdnFor(fq)(d).Ok? { FqdnEntryNames(d, fq); }
    SectionOk(snowflake, domain, AdfDomains, FqdnFor(fq));
    forall d | d in OrderedDomains ensures ScaleFor(up, down)(d).Ok? { ScaleEntryNames(d, up, down); }
    SectionOk(azure, domain, OrderedDomains, ScaleFor(up, down));
    forall d | d in AdfDomains ensures TriggerFor(up, down)(d).Ok? { TriggerEntryNames(d, up, down); }
    SectionOk(azure, domain, AdfDomains, TriggerFor(up, down));
    forall d | d in OrderedDomains ensures KvFor(env)(d).Ok? { KvEntryNames(d, env); }
    SectionOk(azure, domain, OrderedDomains, KvFor(env));
    forall d | d in OrderedDomains ensures StgFor(env)(d).Ok? { StgEntryNames(d, env); }
    SectionOk(azure, domain, OrderedDomains, StgFor(env));
  }

  /** Every input the command line accepts produces a document: a listed
      domain or "All", and a "qa" or "prod" environment. Retail alone is
      refused with a ValueError, and a customer document wins over all. */
  lemma CommandLineInputsSucceed(
    mode: string, storage: bool, snowflake: bool, azure: bool, domain: string, environment: string)
    requires domain == "All" || domain in OrderedDomains
    requires environment == "qa" || environment == "prod"
    ensures GenerateJson(mode, storage, snowflake, azure, domain, environment, None).Ok?
    ensures GenerateJson(mode, storage, snowflake, azure, "Retail", environment, None) == Err(ValueError)
    ensures forall doc :: GenerateJson(mode, storage, snowflake, azure, domain, environment, Some(doc)) == Ok(doc)
  {
    assert Lower(environment) == environment;
    assert domain != "Retail";
    SectionsBuild(mode, storage, snowflake, azure, domain, environment);
  }

  /** In a failover or failback from qa or prod, the side brought up and the
      side brought down are different resources. */
  lemma SidesDiffer(mode: string, env: string, d: string)
    requires env == "qa" || env == "prod"
    ensures AdfSide(d, UpTag(mode, env)) != AdfSide(d, DownTag(mode, env))
    ensures BatchSide(d, UpTag(mode, env)) != BatchSide(d, DownTag(mode, env))
    ensures KvSide(d, env) != KvSide(d, "DR") && StgSide(d, env) != StgSide(d, "DR")
  {
    var a, b := UpTag(mode, env), DownTag(mode, env);
    assert NameIn(RgTable, d, a)[0] == a[0] && NameIn(RgTable, d, b)[0] == b[0];
    assert NameIn(RgTable, d, env)[0] == env[0] && NameIn(RgTable, d, "DR")[0] == 'D';
  }

  /** Sales in qa, failing over with Azure down: the DR factory is started
      and the qa factory stopped, the DR pool scaled up and the qa pool
      down, and no storage or Snowflake section is written. */
  lemma SalesQaFailover(mode: string, domain: string, environment: string)
    requires mode == "failover" && domain == "Sales" && environment == "qa"
    ensures
      var r := GenerateJson(mode, false, false, true, domain, environment, None);
      && r.Ok?
      && r.value.adfTrigger == Some(One(TriggerPair(AdfSide(domain, "DR"), AdfSide(domain, environment))))
      && r.value.batchAccountScale == Some(One(ScalePair(BatchSide(domain, "DR"), BatchSide(domain, environment))))
      && r.value.storageGRS.None? && r.value.linkedServiceFqdn.None?
  {
    assert Lower(environment) == environment;
    SectionsBuild(mode, false, false, true, domain, environment);
    GeneratedParts(mode, false, false, true, domain, environment, environment);
    TriggerEntryNames(domain, "DR", environment);
    ScaleEntryNames(domain, "DR", environment);
  }
}
