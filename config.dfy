/** Configuration defaulting (`config.py`): `load` with a supplied
    dictionary fills in the `server` section in place, and `set_log_level`
    maps a level name to a `logging` level. */
module Config {
  import opened PyValue
  import PyStr

  const DefaultAddress: string := "0.0.0.0"
  const DefaultPort: int := 8080

  // The numeric levels of Python's `logging` module.
  const Debug: int := 10
  const Info: int := 20
  const Warning: int := 30
  const Error: int := 40
  const Critical: int := 50

  /** The configuration dictionary, which `load` mutates and returns. */
  class ConfigDict {
    var entries: map<string, Value>

    constructor (entries: map<string, Value>)
      ensures this.entries == entries
    {
      this.entries := entries;
    }
  }

  /** `v is None` */
  predicate IsNone(v: Value) {
    v == Leaf(Null)
  }

  /** The server section after the chain of conditionals in `load`:
      address and port default when missing or `None`, key defaults to
      `None` when missing, every other entry stays. */
  function ServerWithDefaults(server: map<string, Value>): (r: map<string, Value>)
    ensures r.Keys == server.Keys + {"address", "port", "key"}
    ensures r["address"] ==
      if "address" !in server || IsNone(server["address"]) then Leaf(Str(DefaultAddress))
      else server["address"]
    ensures r["port"] ==
      if "port" !in server || IsNone(server["port"]) then Leaf(Int(DefaultPort))
      else server["port"]
    ensures r["key"] == if "key" in server then server["key"] else Leaf(Null)
    ensures forall k :: k in server && k !in {"address", "port", "key"} ==> r[k] == server[k]
  {
    var s1 := if "address" !in server then server["address" := Leaf(Str(DefaultAddress))] else server;
    var s2 := if IsNone(s1["address"]) then s1["address" := Leaf(Str(DefaultAddress))] else s1;
    var s3 := if "port" !in s2 then s2["port" := Leaf(Int(DefaultPort))] else s2;
    var s4 := if IsNone(s3["port"]) then s3["port" := Leaf(Int(DefaultPort))] else s3;
    if "key" !in s4 then s4["key" := Leaf(Null)] else s4
  }

  /** The whole configuration after defaulting. A `server` entry that is not
      a dictionary makes the first membership test or item assignment raise
      `TypeError` before anything is written. */
  function WithDefaults(config: map<string, Value>): (r: Outcome<map<string, Value>>)
    ensures r.Raise? <==> "server" in config && !config["server"].Dict?
    ensures r.Return? ==> r.value.Keys == config.Keys + {"server"}
    ensures r.Return? ==> forall k :: k in config && k != "server" ==> r.value[k] == config[k]
    ensures "server" !in config ==> r == Return(config["server" :=
      Dict(map["address" := Leaf(Str(DefaultAddress)), "port" := Leaf(Int(DefaultPort)), "key" := Leaf(Null)])])
    ensures "server" in config && config["server"].Dict? ==>
      r == Return(config["server" := Dict(ServerWithDefaults(config["server"].entries))])
  {
    if "server" in config then
      match config["server"]
      case Dict(server) => Return(config["server" := Dict(ServerWithDefaults(server))])
      case _ => Raise(TypeError)
    else
      Return(config["server" := Dict(map["address" := Leaf(Str(DefaultAddress)),
                                         "port" := Leaf(Int(DefaultPort)),
                                         "key" := Leaf(Null)])])
  }

  /** Defaulting a second time changes nothing. */
  lemma ServerDefaultsIdempotent(server: map<string, Value>)
    ensures ServerWithDefaults(ServerWithDefaults(server)) == ServerWithDefaults(server)
  {
    var r := ServerWithDefaults(server);
    var rr := ServerWithDefaults(r);
    assert rr.Keys == r.Keys;
    forall k | k in r ensures rr[k] == r[k] {
    }
  }

  /** After defaulting, the server section always has a non-`None` address
      and port and a key entry. */
  lemma DefaultsComplete(config: map<string, Value>)
    requires WithDefaults(config).Return?
    ensures var c := WithDefaults(config).value;
      && "server" in c && c["server"].Dict?
      && "address" in c["server"].entries && !IsNone(c["server"].entries["address"])
      && "port" in c["server"].entries && !IsNone(c["server"].entries["port"])
      && "key" in c["server"].entries
  {
  }

  /** `load(data=config)`: the very dictionary passed in is defaulted in
      place and returned. */
  method Load(data: ConfigDict) returns (r: Outcome<ConfigDict>)
    modifies data
    ensures WithDefaults(old(data.entries)).Raise? ==>
      r == Raise(TypeError) && data.entries == old(data.entries)
    ensures WithDefaults(old(data.entries)).Return? ==>
      r == Return(data) && data.entries == WithDefaults(old(data.entries)).value
  {
    var config := data;
    if "server" in config.entries {
      if !config.entries["server"].Dict? {
        return Raise(TypeError);
      }
      var server := config.entries["server"].entries;
      if "address" !in server {
        server := server["address" := Leaf(Str(DefaultAddress))];
      }
      if IsNone(server["address"]) {
        server := server["address" := Leaf(Str(DefaultAddress))];
      }
      if "port" !in server {
        server := server["port" := Leaf(Int(DefaultPort))];
      }
      if IsNone(server["port"]) {
        server := server["port" := Leaf(Int(DefaultPort))];
      }
      if "key" !in server {
        server := server["key" := Leaf(Null)];
      }
      config.entries := config.entries["server" := Dict(server)];
    } else {
      config.entries := config.entries["server" := Dict(map["address" := Leaf(Str(DefaultAddress)),
                                                            "port" := Leaf(Int(DefaultPort)),
                                                            "key" := Leaf(Null)])];
    }
    return Return(config);
  }

  /** `set_log_level`'s chain of case-insensitive comparisons. */
  function LogLevel(name: string): (level: int)
    ensures level in {Debug, Info, Warning, Error, Critical}
  {
    var lower := PyStr.Lower(name);
    if lower == "debug" then Debug
    else if lower == "info" then Info
    else if lower == "warning" then Warning
    else if lower == "error" then Error
    else if lower == "critical" then Critical
    else Info
  }

  /** The level table as a map, an independent statement of the mapping. */
  const LevelNames: map<string, int> :=
    map["debug" := Debug, "info" := Info, "warning" := Warning,
        "error" := Error, "critical" := Critical]

  /** `LogLevel` agrees with the table, and every unknown name falls back to
      INFO. */
  lemma LogLevelTable(name: string)
    ensures PyStr.Lower(name) in LevelNames ==> LogLevel(name) == LevelNames[PyStr.Lower(name)]
    ensures PyStr.Lower(name) !in LevelNames ==> LogLevel(name) == Info
  {
  }

  /** The mapping ignores case: a name and its lower-case form give the
      same level. */
  lemma {:induction false} LogLevelIgnoresCase(name: string)
    ensures LogLevel(name) == LogLevel(PyStr.Lower(name))
  {
    var l := PyStr.Lower(name);
    assert PyStr.Lower(l) == l by {
      forall i | 0 <= i < |l| ensures PyStr.Lower(l)[i] == l[i] {
      }
    }
  }

  /** Only the five names select a level other than INFO, and distinct names
      select distinct levels. */
  lemma LogLevelDistinct(a: string, b: string)
    requires PyStr.Lower(a) in LevelNames && PyStr.Lower(b) in LevelNames
    requires PyStr.Lower(a) != PyStr.Lower(b)
    ensures LogLevel(a) != LogLevel(b)
  {
  }

  /** The root logger, whose level `set_log_level` finally sets. */
  class RootLogger {
    var level: int

    constructor ()
      ensures level == Warning
    {
      level := Warning;
    }

    /** `set_log_level(name)` */
    method SetLogLevel(name: string)
      modifies this
      ensures level == LogLevel(name)
    {
      var lower := PyStr.Lower(name);
      if lower == "debug" {
        level := Debug;
      } else if lower == "info" {
        level := Info;
      } else if lower == "warning" {
        level := Warning;
      } else if lower == "error" {
        level := Error;
      } else if lower == "critical" {
        level := Critical;
      } else {
        level := Info;
      }
    }
  }
}
