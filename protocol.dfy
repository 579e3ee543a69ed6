/**
 * The position protocol of the visualizer: the records a client sends, what
 * the scene keeps of each loaded model, and the batch upsert rule that the
 * `position` event handler applies to the scene's list of models.
 *
 * The functions here are the specification that the handler methods in
 * main.dfy and util.dfy are proved against.
 */
module Protocol {

  datatype Option<T> = None | Some(value: T)

  /** A point in scene coordinates. The handler only copies it around. */
  datatype Vec3 = Vec3(x: real, y: real, z: real)

  /** One decoded element `{id, type, position: {x, y, z}, yaw}` of a position message. */
  datatype Record = Record(id: int, kind: string, position: Vec3, yaw: real)

  /** What the scene keeps of a loaded model: the asset it was loaded from, its position and its heading. */
  datatype Model = Model(kind: string, position: Vec3, yaw: real)

  /** An event the server emits to its clients: the event name and the value of its `response` key. */
  datatype Message = Message(event: string, response: string)

  /** The fixed acknowledgement sent after a batch has been handled. */
  const Ack := Message("response", "ok")

  /**
   * What handling a batch leaves behind. `Acked` when every record was applied;
   * `Raised` when a record's index raised IndexError, in which case `models`
   * is the list as the records before it left it and no later record is applied.
   */
  datatype Outcome = Acked(models: seq<Model>) | Raised(models: seq<Model>)

  /** The model that the append branch creates from a record. */
  function Spawn(r: Record): Model
  {
    Model(r.kind, r.position, r.yaw)
  }

  /** The update branch: a model moved to the record's position and heading, keeping its own type. */
  function Move(m: Model, r: Record): Model
  {
    m.(position := r.position, yaw := r.yaw)
  }

  /**
   * Python list indexing `models[id]` on a list of length `n`: a non-negative
   * index counts from the front, a negative one from the end, and anything
   * else raises IndexError (None).
   */
  function PyIndex(id: int, n: nat): (r: Option<nat>)
    ensures r.Some? <==> -(n as int) <= id < n
    ensures r.Some? ==> r.value < n && r.value == id % n
  {
    if 0 <= id < n then Some(id)
    else if -(n as int) <= id < 0 then Some(id + n)
    else None
  }

  /**
   * One iteration of the handler's loop: append when `id` is at or beyond the
   * end of the list, otherwise move the model that `models[id]` denotes.
   * None is the IndexError of an index below `-|models|`.
   */
  function Apply(models: seq<Model>, r: Record): (res: Option<seq<Model>>)
    // the append branch grows the list by one, at index |models| whatever the id
    ensures r.id >= |models| ==>
              res.Some? && |res.value| == |models| + 1 && res.value[..|models|] == models &&
              res.value[|models|] == Model(r.kind, r.position, r.yaw)
    // the update branch raises exactly when the index is below -|models|
    ensures r.id < |models| ==> (res.Some? <==> -(|models| as int) <= r.id)
    // the update branch changes one entry, through position and yaw only
    ensures res.Some? && r.id < |models| ==>
              |res.value| == |models| &&
              forall j :: 0 <= j < |models| ==>
                if j == r.id % |models|
                then res.value[j].kind == models[j].kind &&
                     res.value[j].position == r.position && res.value[j].yaw == r.yaw
                else res.value[j] == models[j]
  {
    if r.id >= |models| then Some(models + [Spawn(r)])
    else match PyIndex(r.id, |models|)
      case Some(i) => Some(models[i := Move(models[i], r)])
      case None => None
  }

  /**
   * The whole handler: the records applied left to right, each seeing the
   * list as the records before it left it; the first IndexError stops the batch.
   */
  function Upsert(models: seq<Model>, batch: seq<Record>): (r: Outcome)
    // an empty batch is acknowledged and leaves the list as it was
    ensures batch == [] ==> r == Acked(models)
    // the list never shrinks
    ensures |r.models| >= |models|
    // no record ever changes the type of a model that already exists
    ensures forall j :: 0 <= j < |models| ==> r.models[j].kind == models[j].kind
    decreases |batch|
  {
    if batch == [] then Acked(models)
    else match Apply(models, batch[0])
      case None => Raised(models)
      case Some(next) => Upsert(next, batch[1..])
  }

  /** The number of records of `batch` that take the append branch before any IndexError. */
  function Appends(models: seq<Model>, batch: seq<Record>): nat
    decreases |batch|
  {
    if batch == [] then 0
    else match Apply(models, batch[0])
      case None => 0
      case Some(next) => (if batch[0].id >= |models| then 1 else 0) + Appends(next, batch[1..])
  }

  /** The acknowledgements a handled batch emits: one `"ok"` when it ran to the end, none when it raised. */
  function Acks(o: Outcome): seq<Message>
  {
    if o.Acked? then [Ack] else []
  }
}
