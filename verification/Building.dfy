/** `builder.rs`: a pair of producer and consumer around fresh shared objects. */
module Building {
  import opened Core
  import opened Worlds
  import opened Memory
  import opened Endpoints
  import opened Consuming
  import M = Machine

  /** The builder collects the configuration; building a pair consumes it. */
  class MemoryBuilder {
    const capacity: Option<nat>
    var dlqConfig: Option<U32>

    constructor (capacity: Option<nat>)
      ensures this.capacity == capacity && dlqConfig == None
    {
      this.capacity, dlqConfig := capacity, None;
    }

    method DeadLetterQueue(max: U32)
      modifies this`dlqConfig
      ensures dlqConfig == Some(max)
    {
      dlqConfig := Some(max);
    }

    /** Creating a channel of capacity 0 panics; otherwise producer and consumer share a channel of 1024 or as many
        slots as asked for, a schedule and the nack counts, all empty, and there is nothing yet that anybody has done.
        `script` is what the others are going to do. */
    method BuildPair(now: Time, script: seq<Gap>) returns (r: Option<(MemoryProducer, MemoryConsumer)>)
      ensures r == None <==> capacity == Some(0)
      ensures r.Some? ==>
                var (p, c) := r.value;
                var n := if capacity.Some? then capacity.value else 1024;
                && fresh(c) && fresh(p) && fresh(c.w) && fresh(c.w.ch) && fresh(c.w.shared) && fresh(c.w.shutdown)
                && c.Valid() && c.w.s.consumer.pc == M.Idle && c.answers == [] && p.w == c.w && p.Works()
                && c.w.Now() == Config(M.Init(n, dlqConfig, now), script, {TheConsumer, TheProducer(0)}, false)
    {
      var n := if capacity.Some? then capacity.value else 1024;
      if n == 0 {
        return None;
      }
      var w := new World(n, dlqConfig, now, script);
      var p := new MemoryProducer(w, 0);
      var c := new MemoryConsumer(w);
      return Some((p, c));
    }
  }
}
