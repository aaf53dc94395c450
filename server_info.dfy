/**
 * The aggregator: `getInformation` asks each provider for its `IInfoData`,
 * reduces every one of them into a plain section (numbers copied, Counters
 * flattened into key -> count objects) stored under the section name, and
 * finally attaches a copy of the Meteor facts.
 */
module Aggregator {
  import opened Wrappers
  import opened Counters
  import opened Info
  import Mongo
  import Sampler

  /** A reduced metric: a number, or a Counter flattened into a plain object. */
  datatype RawValue = Num(x: real) | Obj(entries: map<Key, nat>)

  /** A reduced section: metric name -> reduced value. */
  type Section = map<string, RawValue>

  /** What the reducer makes of one metric value. */
  function Flatten(v: MetricValue): RawValue
  {
    match v
    case Scalar(x) => Num(x)
    case Ctr(c) => Obj(ToObject(c))
  }

  /**
   * A number is kept as it is; a Counter becomes the object whose keys are
   * the Counter's keys, each mapped to its count.
   */
  lemma FlattenSpec(v: MetricValue)
    ensures v.Scalar? <==> Flatten(v).Num?
    ensures v.Scalar? ==> Flatten(v).x == v.x
    ensures v.Ctr? && UniqueKeys(v.c) ==>
      && Flatten(v).entries.Keys == KeySet(v.c)
      && forall i :: 0 <= i < |v.c| ==> Flatten(v).entries[v.c[i].0] == v.c[i].1
  {
    if v.Ctr? && UniqueKeys(v.c) {
      ToObjectSpec(v.c);
    }
  }

  /** The section the reducer builds by visiting the entries of `d` in order. */
  function ReduceSection(d: InfoData): Section
  {
    if |d| == 0 then map[] else ReduceSection(d[..|d| - 1])[d[|d| - 1].0 := Flatten(d[|d| - 1].1)]
  }

  /**
   * No metric is dropped or added, and every metric keeps its value: numbers
   * verbatim, Counters as the object of their entries.
   */
  lemma {:induction false} ReduceSectionSpec(d: InfoData)
    requires UniqueNames(d)
    ensures ReduceSection(d).Keys == Names(d)
    ensures forall i :: 0 <= i < |d| ==> ReduceSection(d)[d[i].0] == Flatten(d[i].1)
  {
    if |d| > 0 {
      var p := d[..|d| - 1];
      assert UniqueNames(p) by {
        forall i, j | 0 <= i < j < |p| ensures p[i].0 != p[j].0 {
          assert p[i] == d[i] && p[j] == d[j];
        }
      }
      ReduceSectionSpec(p);
      assert Names(d) == Names(p) + {d[|d| - 1].0} by {
        forall x | x in Names(d) ensures x in Names(p) + {d[|d| - 1].0} {
          var j :| 0 <= j < |d| && d[j].0 == x;
          if j < |d| - 1 { assert p[j].0 == x; }
        }
        forall x | x in Names(p) ensures x in Names(d) {
          var j :| 0 <= j < |p| && p[j].0 == x;
          assert d[j].0 == x;
        }
      }
      forall i | 0 <= i < |d| ensures ReduceSection(d)[d[i].0] == Flatten(d[i].1) {
        if i < |d| - 1 {
          assert p[i] == d[i];
        }
      }
    }
  }

  /** The reduced section of well-formed data, value by value. */
  lemma ReducedValues(d: InfoData)
    requires WellFormed(d)
    ensures ReduceSection(d).Keys == Names(d)
    ensures forall i :: 0 <= i < |d| && d[i].1.Scalar? ==> ReduceSection(d)[d[i].0] == Num(d[i].1.x)
    ensures forall i :: 0 <= i < |d| && d[i].1.Ctr? ==>
      && ReduceSection(d)[d[i].0].Obj?
      && ReduceSection(d)[d[i].0].entries.Keys == KeySet(d[i].1.c)
      && forall j :: 0 <= j < |d[i].1.c| ==> ReduceSection(d)[d[i].0].entries[d[i].1.c[j].0] == d[i].1.c[j].1
  {
    ReduceSectionSpec(d);
    forall i | 0 <= i < |d| {
      FlattenSpec(d[i].1);
    }
  }

  /** A Counter holding 2 on x and 3 on y flattens to `{x: 2, y: 3}`. */
  lemma FlattenExample(x: Key, y: Key)
    requires x != y
    ensures Flatten(Ctr([(x, 2), (y, 3)])) == Obj(map[x := 2, y := 3])
  {
    var c := [(x, 2), (y, 3)];
    assert c[..1] == [(x, 2)];
    assert c[..1][..0] == c[..0];
    assert ToObject(c[..1]) == map[x := 2];
  }

  /** The sources in the order `getInformation` lists them, as (section name, data). */
  type Sources = seq<(string, InfoData)>

  /** Folding the reducer over the sources, starting from `accu`. */
  function Assemble(accu: map<string, Section>, sources: Sources): map<string, Section>
  {
    if |sources| == 0 then accu
    else Assemble(accu, sources[..|sources| - 1])[sources[|sources| - 1].0 := ReduceSection(sources[|sources| - 1].1)]
  }

  function SourceNames(sources: Sources): set<string>
  {
    set i | 0 <= i < |sources| :: sources[i].0
  }

  predicate UniqueSections(sources: Sources)
  {
    forall i, j :: 0 <= i < j < |sources| ==> sources[i].0 != sources[j].0
  }

  lemma SourceNamesSnoc(sources: Sources)
    requires |sources| > 0
    ensures SourceNames(sources) == SourceNames(sources[..|sources| - 1]) + {sources[|sources| - 1].0}
  {
    var p := sources[..|sources| - 1];
    forall x | x in SourceNames(sources) ensures x in SourceNames(p) + {sources[|sources| - 1].0} {
      var j :| 0 <= j < |sources| && sources[j].0 == x;
      if j < |sources| - 1 { assert p[j].0 == x; }
    }
    forall x | x in SourceNames(p) ensures x in SourceNames(sources) {
      var j :| 0 <= j < |p| && p[j].0 == x;
      assert sources[j].0 == x;
    }
  }

  /** The fold adds one section per source to the accumulator's sections. */
  lemma {:induction false} AssembleKeys(accu: map<string, Section>, sources: Sources)
    ensures Assemble(accu, sources).Keys == accu.Keys + SourceNames(sources)
  {
    if |sources| > 0 {
      AssembleKeys(accu, sources[..|sources| - 1]);
      SourceNamesSnoc(sources);
    }
  }

  /** Each source's section is the reduction of that source's data. */
  lemma {:induction false} AssembleLookup(accu: map<string, Section>, sources: Sources)
    requires UniqueSections(sources)
    ensures forall i :: 0 <= i < |sources| ==>
      sources[i].0 in Assemble(accu, sources) && Assemble(accu, sources)[sources[i].0] == ReduceSection(sources[i].1)
  {
    if |sources| > 0 {
      var p := sources[..|sources| - 1];
      assert UniqueSections(p) by {
        forall i, j | 0 <= i < j < |p| ensures p[i].0 != p[j].0 {
          assert p[i] == sources[i] && p[j] == sources[j];
        }
      }
      AssembleLookup(accu, p);
      AssembleKeys(accu, p);
      forall i | 0 <= i < |sources|
        ensures sources[i].0 in Assemble(accu, sources) && Assemble(accu, sources)[sources[i].0] == ReduceSection(sources[i].1)
      {
        if i < |sources| - 1 {
          assert p[i] == sources[i];
        }
      }
    }
  }

  /**
   * With distinct section names, the registration order of the sources does
   * not change the tree: any reordering folds to the same sections.
   */
  lemma AssembleOrderFree(a: Sources, b: Sources)
    requires UniqueSections(a) && UniqueSections(b)
    requires multiset(a) == multiset(b)
    ensures Assemble(map[], a) == Assemble(map[], b)
  {
    var ta, tb := Assemble(map[], a), Assemble(map[], b);
    assert SourceNames(a) == SourceNames(b) by {
      forall x | x in SourceNames(a) ensures x in SourceNames(b) {
        var i :| 0 <= i < |a| && a[i].0 == x;
        assert a[i] in multiset(b);
        var j :| 0 <= j < |b| && b[j] == a[i];
      }
      forall x | x in SourceNames(b) ensures x in SourceNames(a) {
        var j :| 0 <= j < |b| && b[j].0 == x;
        assert b[j] in multiset(a);
        var i :| 0 <= i < |a| && a[i] == b[j];
      }
    }
    assert ta.Keys == tb.Keys by {
      AssembleKeys(map[], a);
      AssembleKeys(map[], b);
    }
    forall x | x in ta ensures tb[x] == ta[x] {
      assert x in SourceNames(a) by {
        AssembleKeys(map[], a);
      }
      var i :| 0 <= i < |a| && a[i].0 == x;
      assert a[i] in multiset(b);
      var j :| 0 <= j < |b| && b[j] == a[i];
      assert ta[x] == ReduceSection(a[i].1) by {
        AssembleLookup(map[], a);
      }
      assert tb[x] == ReduceSection(b[j].1) by {
        AssembleLookup(map[], b);
      }
    }
  }

  /** A section of the accumulator that no source names is left alone. */
  lemma {:induction false} AssembleKeepsOthers(accu: map<string, Section>, sources: Sources, name: string)
    requires name in accu && name !in SourceNames(sources)
    ensures name in Assemble(accu, sources) && Assemble(accu, sources)[name] == accu[name]
  {
    if |sources| > 0 {
      SourceNamesSnoc(sources);
      AssembleKeepsOthers(accu, sources[..|sources| - 1], name);
    }
  }

  /** `ServerInfoSettings`: the route path and the basic-auth credentials. */
  datatype Settings = Settings(path: string, user: string, pass: string)

  const DEFAULT_SETTINGS := Settings("/serverInfo", "insecure", "secureme")

  /** `meteor.settings.serverInfo || defaultSettings`. */
  function SelectSettings(configured: Option<Settings>): (s: Settings)
    ensures configured.Some? ==> s == configured.value
    ensures configured.None? ==> s.path == "/serverInfo" && s.user == "insecure" && s.pass == "secureme"
  {
    if configured.Some? then configured.value else DEFAULT_SETTINGS
  }

  /** The facts one package published: fact name -> value. */
  class PackageFacts {
    var values: map<string, int>

    constructor (values: map<string, int>)
      ensures this.values == values
    {
      this.values := values;
    }
  }

  /** The Meteor Facts service: `_factsByPackage`, package name -> its facts object. */
  class Facts {
    var factsByPackage: map<string, PackageFacts>

    constructor (factsByPackage: map<string, PackageFacts>)
      ensures this.factsByPackage == factsByPackage
    {
      this.factsByPackage := factsByPackage;
    }
  }

  /** The object `getInformation` builds: the reduced sections, then `facts`. */
  class Results {
    var sections: map<string, Section>
    var facts: Option<map<string, PackageFacts>>

    constructor ()
      ensures sections == map[] && facts == None
    {
      sections := map[];
      facts := None;
    }
  }

  /** The four sources, in the fixed order of `getInformation`. */
  function NamedSources(sockets: InfoData, sessions: InfoData, mongo: InfoData, process: InfoData): (s: Sources)
    ensures UniqueSections(s)
    ensures SourceNames(s) == {"sockets", "sessions", "mongo", "process"}
  {
    var s := [("sockets", sockets), ("sessions", sessions), ("mongo", mongo), ("process", process)];
    assert s[0].0 == "sockets" && s[1].0 == "sessions" && s[2].0 == "mongo" && s[3].0 == "process";
    s
  }

  /** Folding over the four named sources stores their four sections in order. */
  lemma AssembleNamed(accu: map<string, Section>, sockets: InfoData, sessions: InfoData, mongo: InfoData, process: InfoData)
    ensures Assemble(accu, NamedSources(sockets, sessions, mongo, process))
            == accu["sockets" := ReduceSection(sockets)]["sessions" := ReduceSection(sessions)]
                   ["mongo" := ReduceSection(mongo)]["process" := ReduceSection(process)]
  {
    var s := NamedSources(sockets, sessions, mongo, process);
    var s1, s2, s3 := s[..1], s[..2], s[..3];
    assert s1[..0] == [] && s2[..1] == s1 && s3[..2] == s2 && s[..3] == s3;
    assert Assemble(accu, s1) == accu["sockets" := ReduceSection(sockets)];
    assert Assemble(accu, s2) == Assemble(accu, s1)["sessions" := ReduceSection(sessions)];
    assert Assemble(accu, s3) == Assemble(accu, s2)["mongo" := ReduceSection(mongo)];
  }

  class ServerInfo {
    const settings: Settings
    const facts: Facts

    /** `configured` is `meteor.settings.serverInfo`, absent when not set. */
    constructor (configured: Option<Settings>, facts: Facts)
      ensures settings == SelectSettings(configured) && this.facts == facts
    {
      settings := SelectSettings(configured);
      this.facts := facts;
    }

    /**
     * The section descriptions, by the same names as the sections of
     * `getInformation`. The socket and session descriptions come from
     * providers outside this model and are parameters.
     */
    static function GetDescriptions(socketsDescription: InfoDescription, sessionsDescription: InfoDescription): (r: map<string, InfoDescription>)
      ensures r.Keys == {"sockets", "sessions", "mongo", "process"}
      ensures r["sockets"] == socketsDescription && r["sessions"] == sessionsDescription
      ensures r["mongo"] == Mongo.MongoInfo.GetDescription()
      ensures r["process"] == Sampler.NodeInfo.GetDescription()
    {
      map[
        "sockets" := socketsDescription,
        "sessions" := sessionsDescription,
        "mongo" := Mongo.MongoInfo.GetDescription(),
        "process" := Sampler.NodeInfo.GetDescription()
      ]
    }

    /**
     * Reduces one provider's data into a section stored as `accu[section]`.
     * The reducer uses nothing of the instance, so it is static here.
     */
    static method InfoReducer(accu: Results, section: string, infoData: InfoData)
      requires UniqueNames(infoData)
      modifies accu
      ensures accu.sections == old(accu.sections)[section := ReduceSection(infoData)]
      ensures accu.facts == old(accu.facts)
    {
      var infoRaw: Section := map[];
      for i := 0 to |infoData|
        invariant infoRaw == ReduceSection(infoData[..i])
      {
        assert infoData[..i + 1][..i] == infoData[..i];
        var (idk, idv) := infoData[i];
        match idv {
          case Scalar(x) =>
            infoRaw := infoRaw[idk := Num(x)];
          case Ctr(counter) =>
            // Names are unique, so `infoRaw[idk] || {}` always starts from `{}`.
            assert idk !in infoRaw by {
              assert UniqueNames(infoData[..i]) by {
                forall a, b | 0 <= a < b < i ensures infoData[..i][a].0 != infoData[..i][b].0 {
                }
              }
              ReduceSectionSpec(infoData[..i]);
            }
            var tmp: map<Key, nat> := map[];
            for j := 0 to |counter|
              invariant tmp == ToObject(counter[..j])
            {
              assert counter[..j + 1][..j] == counter[..j];
              var (k, v) := counter[j];
              tmp := tmp[k := v];
            }
            assert counter[..|counter|] == counter;
            infoRaw := infoRaw[idk := Obj(tmp)];
        }
      }
      assert infoData[..|infoData|] == infoData;
      accu.sections := accu.sections[section := infoRaw];
    }

    /**
     * One collection: a fresh MongoInfo and a fresh NodeInfo are built, the
     * four sources are reduced in order, then the facts are copied. The
     * socket and session data, the multiplexers and the process readings
     * are the values read from Meteor and Node.js at that moment.
     */
    method GetInformation(socketsData: InfoData, sessionsData: InfoData, muxes: seq<seq<Mongo.Handle>>,
                          hrtime: Sampler.HrTime, constructedMs: int, constructedCpu: Sampler.CpuUsage,
                          ram: Sampler.MemoryUsage, polledMs: int, polledCpu: Sampler.CpuUsage)
      returns (results: Results)
      requires UniqueNames(socketsData) && UniqueNames(sessionsData)
      requires Mongo.MuxesHaveDrivers(muxes)
      ensures fresh(results)
      ensures results.sections == Assemble(map[], NamedSources(
        socketsData, sessionsData,
        Mongo.ToInfoData(Mongo.FreshInfo(muxes)),
        Sampler.ToInfoData(Sampler.FirstInfo(constructedMs, constructedCpu, ram, polledMs, polledCpu))))
      ensures results.facts == Some(facts.factsByPackage)
    {
      var mongo := new Mongo.MongoInfo(muxes);
      var node := new Sampler.NodeInfo(hrtime, constructedMs, constructedCpu);
      results := new Results();
      InfoReducer(results, "sockets", socketsData);
      InfoReducer(results, "sessions", sessionsData);
      var mongoData := mongo.GetInfo();
      assert UniqueNames(Mongo.ToInfoData(mongoData)) by {
        Mongo.DataMatchesMetrics(mongoData);
      }
      InfoReducer(results, "mongo", Mongo.ToInfoData(mongoData));
      var nodeData := node.GetInfo(ram, polledMs, polledCpu);
      assert UniqueNames(Sampler.ToInfoData(nodeData)) by {
        Sampler.DataWellFormed(nodeData);
      }
      InfoReducer(results, "process", Sampler.ToInfoData(nodeData));
      results.facts := Some(facts.factsByPackage);
      assert mongoData == Mongo.FreshInfo(muxes);
      assert nodeData == Sampler.FirstInfo(constructedMs, constructedCpu, ram, polledMs, polledCpu);
      AssembleNamed(map[], socketsData, sessionsData, Mongo.ToInfoData(mongoData), Sampler.ToInfoData(nodeData));
      // The sampler is never stopped: its interval timer outlives the call.
      assert node.timer;
    }
  }

  /**
   * The reducer only reads the data: reducing the same data twice under the
   * same name stores the same section, and the second pass changes nothing.
   */
  method ReduceTwice(accu: Results, section: string, infoData: InfoData) returns (first: Section, second: Section)
    requires UniqueNames(infoData)
    modifies accu
    ensures first == second == ReduceSection(infoData)
    ensures accu.sections == old(accu.sections)[section := ReduceSection(infoData)]
  {
    ServerInfo.InfoReducer(accu, section, infoData);
    first := accu.sections[section];
    ghost var once := accu.sections;
    ServerInfo.InfoReducer(accu, section, infoData);
    second := accu.sections[section];
    assert accu.sections == once;
  }

  /**
   * The sections of a collection are the sections `getDescriptions`
   * documents, and within the mongo and process sections the metric names
   * are those their descriptions document.
   */
  lemma SectionsMatchDescriptions(socketsData: InfoData, sessionsData: InfoData, mongo: Mongo.MongoInfoData, process: Sampler.NodeInfoData,
                                  socketsDescription: InfoDescription, sessionsDescription: InfoDescription)
    requires UniqueNames(socketsData) && UniqueNames(sessionsData)
    ensures var sections := Assemble(map[], NamedSources(socketsData, sessionsData, Mongo.ToInfoData(mongo), Sampler.ToInfoData(process)));
      var descriptions := ServerInfo.GetDescriptions(socketsDescription, sessionsDescription);
      && sections.Keys == descriptions.Keys
      && sections["mongo"].Keys == descriptions["mongo"].Keys
      && sections["process"].Keys == descriptions["process"].Keys
  {
    var sources := NamedSources(socketsData, sessionsData, Mongo.ToInfoData(mongo), Sampler.ToInfoData(process));
    var sections := Assemble(map[], sources);
    var descriptions := ServerInfo.GetDescriptions(socketsDescription, sessionsDescription);
    assert sections.Keys == descriptions.Keys by {
      AssembleKeys(map[], sources);
    }
    assert sections["mongo"] == ReduceSection(Mongo.ToInfoData(mongo))
        && sections["process"] == ReduceSection(Sampler.ToInfoData(process)) by {
      AssembleLookup(map[], sources);
      assert sources[2] == ("mongo", Mongo.ToInfoData(mongo));
      assert sources[3] == ("process", Sampler.ToInfoData(process));
    }
    assert ReduceSection(Mongo.ToInfoData(mongo)).Keys == Mongo.METRICS by {
      Mongo.DataMatchesMetrics(mongo);
      ReduceSectionSpec(Mongo.ToInfoData(mongo));
    }
    assert ReduceSection(Sampler.ToInfoData(process)).Keys == Sampler.METRICS by {
      Sampler.DataNames(process);
      Sampler.DataWellFormed(process);
      ReduceSectionSpec(Sampler.ToInfoData(process));
    }
  }

  /**
   * Each collection measures the process with a NodeInfo built for it, so no
   * probe tick has run and the reported loop delay is always 0.
   */
  lemma ProcessLoopDelayIsZero(constructedMs: int, constructedCpu: Sampler.CpuUsage, ram: Sampler.MemoryUsage,
                               polledMs: int, polledCpu: Sampler.CpuUsage)
    ensures var section := ReduceSection(Sampler.ToInfoData(Sampler.FirstInfo(constructedMs, constructedCpu, ram, polledMs, polledCpu)));
      "loopDelay" in section && section["loopDelay"] == Num(0.0)
  {
    var data := Sampler.ToInfoData(Sampler.FirstInfo(constructedMs, constructedCpu, ram, polledMs, polledCpu));
    Sampler.DataWellFormed(Sampler.FirstInfo(constructedMs, constructedCpu, ram, polledMs, polledCpu));
    ReduceSectionSpec(data);
    assert data[2] == ("loopDelay", Scalar(0.0));
  }

  /**
   * The facts are copied at collection time: a package published afterwards
   * does not appear in a result already built.
   */
  method CollectThenPublish(server: ServerInfo, socketsData: InfoData, sessionsData: InfoData, muxes: seq<seq<Mongo.Handle>>,
                            hrtime: Sampler.HrTime, constructedMs: int, constructedCpu: Sampler.CpuUsage,
                            ram: Sampler.MemoryUsage, polledMs: int, polledCpu: Sampler.CpuUsage,
                            package: string, published: PackageFacts)
    returns (results: Results)
    requires UniqueNames(socketsData) && UniqueNames(sessionsData)
    requires Mongo.MuxesHaveDrivers(muxes)
    modifies server.facts
    ensures results.facts == Some(old(server.facts.factsByPackage))
    ensures server.facts.factsByPackage == old(server.facts.factsByPackage)[package := published]
  {
    results := server.GetInformation(socketsData, sessionsData, muxes, hrtime, constructedMs, constructedCpu, ram, polledMs, polledCpu);
    server.facts.factsByPackage := server.facts.factsByPackage[package := published];
  }

  /**
   * The copy is shallow: the per-package facts objects are shared, so a
   * fact updated afterwards in a package already present shows through in a
   * result already built.
   */
  method CollectThenUpdateFact(server: ServerInfo, socketsData: InfoData, sessionsData: InfoData, muxes: seq<seq<Mongo.Handle>>,
                               hrtime: Sampler.HrTime, constructedMs: int, constructedCpu: Sampler.CpuUsage,
                               ram: Sampler.MemoryUsage, polledMs: int, polledCpu: Sampler.CpuUsage,
                               package: string, fact: string, value: int)
    returns (results: Results)
    requires UniqueNames(socketsData) && UniqueNames(sessionsData)
    requires Mongo.MuxesHaveDrivers(muxes)
    requires package in server.facts.factsByPackage
    modifies server.facts.factsByPackage[package]
    ensures results.facts.Some? && package in results.facts.value
    ensures results.facts.value[package].values == old(server.facts.factsByPackage[package].values)[fact := value]
  {
    results := server.GetInformation(socketsData, sessionsData, muxes, hrtime, constructedMs, constructedCpu, ram, polledMs, polledCpu);
    var bundle := server.facts.factsByPackage[package];
    bundle.values := bundle.values[fact := value];
  }
}
