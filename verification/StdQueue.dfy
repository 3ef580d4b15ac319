/** The queue kept in memory: first-in first-out lists, delayed jobs that no operation takes out, and job data. */
module StdQueue {
  import opened Prelude
  import opened JobWork

  /** A delayed job and its time; the priority queue that holds them is a multiset here. */
  datatype Scheduled = Scheduled(data: string, pos: int)

  function Listed(m: map<string, seq<string>>, queue: string): seq<string> {
    if queue in m then m[queue] else []
  }

  function Delayed(m: map<string, multiset<Scheduled>>, queue: string): multiset<Scheduled> {
    if queue in m then m[queue] else multiset{}
  }

  function DataOf(m: map<string, Data>, name: string): Data {
    if name in m then m[name] else map[]
  }

  /** Inserts or assigns the given fields one by one, in any order. */
  method InsertOrAssign(into: Data, data: Data) returns (m: Data)
    ensures m == Merge(into, data)
  {
    hide Merge;
    m := into;
    var left := data.Keys;
    while left != {}
      invariant left <= data.Keys
      invariant forall k :: k in m <==> k in into || (k in data && k !in left)
      invariant forall k :: k in m ==> m[k] == if k in data && k !in left then data[k] else into[k]
      decreases |left|
    {
      var k :| k in left;
      m := m[k := data[k]];
      left := left - {k};
    }
    MergedAre(m, into, data);
  }

  lemma MergedAre(m: Data, into: Data, data: Data)
    requires forall k :: k in m <==> k in into || k in data
    requires forall k :: k in m ==> m[k] == if k in data then data[k] else into[k]
    ensures m == Merge(into, data)
  {
  }

  class StdQueue {
    var queueMap: map<string, seq<string>>
    var laterQueueMap: map<string, multiset<Scheduled>>
    var persistentData: map<string, Data>

    constructor ()
      ensures queueMap == map[] && laterQueueMap == map[] && persistentData == map[]
    {
      queueMap, laterQueueMap, persistentData := map[], map[], map[];
    }

    method Push(queue: string, data: string)
      modifies this`queueMap
      ensures queueMap == old(queueMap)[queue := Listed(old(queueMap), queue) + [data]]
    {
      if queue !in queueMap {
        queueMap := queueMap[queue := []];
      }
      queueMap := queueMap[queue := queueMap[queue] + [data]];
    }

    method PushToLater(queue: string, data: string, time: int)
      modifies this`laterQueueMap
      ensures laterQueueMap ==
          old(laterQueueMap)[queue := Delayed(old(laterQueueMap), queue) + multiset{Scheduled(data, time)}]
    {
      if queue !in laterQueueMap {
        laterQueueMap := laterQueueMap[queue := multiset{}];
      }
      laterQueueMap := laterQueueMap[queue := laterQueueMap[queue] + multiset{Scheduled(data, time)}];
    }

    /** Takes the oldest name; the delayed jobs are not looked at. */
    method Pop(queue: string) returns (r: Option<string>)
      modifies this`queueMap
      ensures r.None? <==> Listed(old(queueMap), queue) == []
      ensures r.None? ==> queueMap == old(queueMap)[queue := []]
      ensures r.Some? ==> queue in queueMap && Listed(old(queueMap), queue) == [r.value] + queueMap[queue]
                          && queueMap == old(queueMap)[queue := queueMap[queue]]
    {
      if queue !in queueMap {
        queueMap := queueMap[queue := []];
      }
      var inst := queueMap[queue];
      if inst == [] {
        return None;
      }
      queueMap := queueMap[queue := inst[1..]];
      return Some(inst[0]);
    }

    /** map::at throws for a missing name. */
    method GetPersistentData(name: string) returns (r: Option<Data>)
      ensures r.Some? <==> name in persistentData
      ensures r.Some? ==> r.value == persistentData[name]
    {
      r := if name in persistentData then Some(persistentData[name]) else None;
    }

    /** The field, if there is one; map::at throws for a missing name. */
    method GetPersistentDataField(name: string, field: Key) returns (threw: bool, r: Option<Field>)
      ensures threw <==> name !in persistentData
      ensures r.Some? <==> name in persistentData && field in persistentData[name]
      ensures r.Some? ==> r.value == persistentData[name][field]
    {
      threw, r := name !in persistentData, None;
      if threw {
        return;
      }
      var val := persistentData[name];
      if field in val {
        r := Some(val[field]);
      }
    }

    /** Assigns the given fields one by one and keeps the others. */
    method SetPersistentData(name: string, data: Data)
      modifies this`persistentData
      ensures persistentData == old(persistentData)[name := Merge(DataOf(old(persistentData), name), data)]
    {
      var m := InsertOrAssign(DataOf(persistentData, name), data);
      persistentData := persistentData[name := m];
    }

    method DelPersistentData(name: string)
      modifies this`persistentData
      ensures persistentData == old(persistentData) - {name}
    {
      persistentData := persistentData - {name};
    }

    /** Keys of a queue in memory do not expire: the default of GenericQueue. */
    method Expire(name: string, seconds: int) returns (done: bool)
      ensures !done
    {
      done := false;
    }
  }
}
