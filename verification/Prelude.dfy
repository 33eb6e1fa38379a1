/** Types shared by the whole model. */
module Prelude {

  datatype Option<+T> = None | Some(value: T)

  newtype byte = x: int | 0 <= x < 256

  type Bytes = seq<byte>

  /** The address of a coroutine object. An address may be reused after its object is freed. */
  type Id = nat

  /** What code running on a thread can ask of the engine. */
  datatype Act =
      // McoCreate returns a coroutine at the fresh address id
    | Create(id: Id, usePrivate: bool)
      // the running coroutine computes: its live stack becomes live, and on the shared buffer
      // whatever it left below its stack pointer is scribble
    | Work(live: Bytes, scribble: Bytes)
    | Resume(id: Id)
    | Yield(id: Id)
      // the callback of the running coroutine returns into CoroutineRun
    | Finish
    | Free(id: Id)

  /** What the running coroutine can see of the machine: who it is and its own live bytes. */
  datatype Sight = Sight(id: Id, live: Bytes)

  /** All the code of a thread: its next act depends on everything seen so far. */
  type Program = seq<Sight> -> Act

  lemma UpdateTwice<K, V>(m: map<K, V>, k: K, a: V, b: V)
    ensures m[k := a][k := b] == m[k := b]
  {
  }
}
