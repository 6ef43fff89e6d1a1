/** The agent-to-agent context pipe of app/agents/protocols/a2a_pipe.py:
    agent output is wrapped into a context addressed from one agent to
    another, and the target unwraps the payload. `V` is the type of the
    values agents exchange. */
module A2APipe {

  /** What an agent hands to `wrap`: a dictionary, or any other value. */
  datatype Data<V> = Dict(entries: map<string, V>) | Plain(value: V)

  datatype A2AContext<V> = A2AContext(sourceAgent: string, targetAgent: string,
                                      payload: map<string, V>, metadata: map<string, V>)

  /** `A2AContext(...)` without metadata: an empty mapping. */
  function NewContext<V>(source: string, target: string, payload: map<string, V>): (c: A2AContext<V>)
    ensures c.metadata == map[]
    ensures c.sourceAgent == source && c.targetAgent == target && c.payload == payload
  {
    A2AContext(source, target, payload, map[])
  }

  /** The payload for the data: a dictionary as it is, anything else under
      the single key `data`. */
  function PayloadOf<V>(data: Data<V>): map<string, V>
  {
    match data
    case Dict(entries) => entries
    case Plain(v) => map["data" := v]
  }

  /** `A2APipe.wrap` */
  function Wrap<V>(source: string, target: string, data: Data<V>): (c: A2AContext<V>)
    ensures c.sourceAgent == source && c.targetAgent == target
    ensures c.metadata == map[]
  {
    NewContext(source, target, PayloadOf(data))
  }

  /** `A2APipe.unwrap` */
  function Unwrap<V>(context: A2AContext<V>): (payload: map<string, V>)
    ensures payload == context.payload
  {
    context.payload
  }

  /** A dictionary survives the pipe unchanged. */
  lemma UnwrapWrapDict<V>(source: string, target: string, entries: map<string, V>)
    ensures Unwrap(Wrap(source, target, Dict(entries))) == entries
  {
  }

  /** Any other value comes out as the one entry `data`. */
  lemma UnwrapWrapPlain<V>(source: string, target: string, v: V)
    ensures var p := Unwrap(Wrap(source, target, Plain(v)));
            p.Keys == {"data"} && p["data"] == v
  {
  }

  /** Unwrapping loses nothing: the data is recoverable from the payload
      when it is known whether a dictionary was sent. */
  lemma {:induction false} WrapIsInjective<V>(source: string, target: string, a: Data<V>, b: Data<V>)
    requires a.Dict? == b.Dict?
    requires Unwrap(Wrap(source, target, a)) == Unwrap(Wrap(source, target, b))
    ensures a == b
  {
    if a.Plain? {
      assert PayloadOf(a)["data"] == a.value;
      assert PayloadOf(b)["data"] == b.value;
    }
  }

  /** Without knowing which kind was sent the payload is ambiguous: a plain
      value and a dictionary holding it under `data` unwrap alike. */
  lemma PlainAndDataDictCoincide<V>(source: string, target: string, v: V)
    ensures Unwrap(Wrap(source, target, Plain(v))) == Unwrap(Wrap(source, target, Dict(map["data" := v])))
  {
  }
}
