/** registry.py: the node table in Redis that routing reads, one command at a time. */
module Registry {
  import opened Prelude

  datatype Json = Text(text: string) | Number(number: real) | Texts(texts: seq<string>) | Other

  /** A JSON object: a node's entry, its public info or a message payload. */
  type Entry = map<string, Json>

  /** _load_info: only the two load fields of a heartbeat, with sane values. `toFloat` and `toInt`
      stand for float() and int(): None where they raise or give no finite number. */
  function LoadInfo(payload: Entry, toFloat: Json -> Option<real>, toInt: Json -> Option<int>)
    : (load: Entry)
    ensures load.Keys == {"cpu_percent", "active_tasks"}
    ensures load["cpu_percent"].Number? && 0.0 <= load["cpu_percent"].number <= 100.0
    ensures load["active_tasks"].Number? && load["active_tasks"].number >= 0.0
    ensures "cpu_percent" in payload ==>
              match toFloat(payload["cpu_percent"])
              case None => load["cpu_percent"].number == 0.0
              case Some(cpu) =>
                && (0.0 <= cpu <= 100.0 ==> load["cpu_percent"].number == cpu)
                && (cpu > 100.0 ==> load["cpu_percent"].number == 100.0)
                && (cpu < 0.0 ==> load["cpu_percent"].number == 0.0)
    ensures "active_tasks" in payload ==>
              match toInt(payload["active_tasks"])
              case None => load["active_tasks"].number == 0.0
              case Some(n) => load["active_tasks"].number == if n >= 0 then n as real else 0.0
    ensures "cpu_percent" !in payload ==> load["cpu_percent"].number == 0.0
    ensures "active_tasks" !in payload ==> load["active_tasks"].number == 0.0
  {
    var cpu := if "cpu_percent" in payload then toFloat(payload["cpu_percent"]) else Some(0.0);
    var active := if "active_tasks" in payload then toInt(payload["active_tasks"]) else None;
    var c := if cpu.None? || cpu.value < 0.0 then 0.0
             else if cpu.value > 100.0 then 100.0 else cpu.value;
    var a := if active.None? then 0 else Max(active.value, 0);
    map["cpu_percent" := Number(c), "active_tasks" := Number(a as real)]
  }

  /** dict.update: the fields of `load` replace or join those of `entry`. */
  function Update(entry: Entry, load: Entry): Entry {
    entry + load
  }

  /** The node table: gn:node:<id> entries and the gn:online_nodes set. */
  datatype Table = Table(entries: map<NodeId, Entry>, online: set<NodeId>)
  {
    function SetEntry(nodeId: NodeId, entry: Entry): Table {
      this.(entries := entries[nodeId := entry])
    }

    function DeleteEntry(nodeId: NodeId): Table {
      this.(entries := entries - {nodeId})
    }

    function AddOnline(nodeId: NodeId): Table {
      this.(online := online + {nodeId})
    }

    function RemoveOnline(nodeId: NodeId): Table {
      this.(online := online - {nodeId})
    }
  }
}
