# Batch upsert of scene models (KiberdromVisualizator)

The visualizer shows a 3D scene with a list of models. A client places the
models by sending a `position` event over a socket. The event carries a batch
of records `{id, type, position: {x, y, z}, yaw}`. The event handler walks the
records in order. A record whose `id` is at or beyond the end of the model
list spawns a new model of that type, appended at the end. Any other record
moves the model at `models[id]` to the record's position and heading. After
the batch the server emits one `"ok"` acknowledgement, which the client waits
for before it sends the next batch.

This project models that rule and proves properties of it:

- `protocol.dfy` (module `Protocol`) holds the data: `Record`, `Model`,
  `Vec3` and the acknowledgement `Message`. It also holds the specification
  of the rule. `Apply` handles one record and `Upsert` the whole batch as a
  left fold. `PyIndex` is Python's list indexing, including negative indices
  and IndexError.
- `protocol_lemmas.dfy` (module `ProtocolLemmas`) proves properties that
  relate several records or several batches.
- `main.dfy` (module `Main`) is main.py's `VisualizationApp`, a class whose
  `models` field is updated in place by its methods. It also holds main.py's
  `ObjectServer`, whose `Position` method is the event handler with its loop.
- `util.dfy` (module `Util`) is the copy of `ObjectServer` in util.py. Its
  handler is proved against the same specification.

Positions and yaws are stored as `real` values. Nothing computes with them;
they are only copied. A model's Python `type` field is called `kind`.

Two details of the code decide edge cases:

- An id equal to the model count also appends, because the code tests
  `id >= len(models)` (main.py:60).
- The update branch indexes a Python list (main.py:145). A negative id in
  `-len..-1` therefore moves a model counted from the end. An id below
  `-len` raises IndexError. That exception leaves the handler early: the
  records before it stay applied, and no `"ok"` is emitted. The model shows
  this with `PyIndex` and the `Raised` outcome. Ids are not restricted by
  any precondition.

## Model

| member | source | states |
|---|---|---|
| `Protocol.PyIndex` | main.py:145 | `models[id]` succeeds exactly when `-len <= id < len`; the entry it picks is below `len` and equals `id` modulo `len`, so negative ids count from the end |
| `Protocol.Apply` | main.py:60-63 | an id `>= len` grows the list by one: the old entries stay as they were and the new model, holding the record's type, position and yaw, goes at index `len` whatever the id; an id below `len` keeps the length, raises exactly when below `-len`, sets the position and yaw of the one entry it denotes, keeps that entry's type (the record's type is ignored) and changes no other entry |
| `Protocol.Upsert` | main.py:59-63 | handling a batch never shrinks the list; no record changes the type of a model that already existed; an empty batch is acknowledged and changes nothing |
| `ProtocolLemmas.UpsertConcat` | main.py:59-63 | records apply left to right: handling `a + b` is handling `a`, then handling `b` on the list as `a` left it, unless `a` raised, in which case `b` is never applied |
| `ProtocolLemmas.LengthCountsAppends` | main.py:59-63 | the final length is the initial length plus the number of records that took the append branch |
| `ProtocolLemmas.InRangeIdsAreAcked` | main.py:59-65 | a batch whose ids are all `>= -len` of the initial list never raises IndexError, so it is always acknowledged; in particular non-negative ids never raise IndexError |
| `ProtocolLemmas.ConsecutiveIds` | main.py:59-63 | when records carry ids `off, off+1, …` with `off <= len`, the batch is acknowledged, the final length is `max(len, off + n)`, and each record lands at index `id`: it moves the model already there, keeping its type, or spawns a new one; entries outside that range are untouched |
| `ProtocolLemmas.ResendOnlyUpdates` | test_client.py:5-14 | re-sending a batch with ids `0..n-1` to a list of at least `n` models appends nothing and keeps the length |
| `ProtocolLemmas.FirstSendSpawnsAll` | test_client.py:5-17 | the first batch with ids `0..n-1` sent to an empty scene spawns exactly one model per record, in record order, each with the record's type, position and yaw |
| `ProtocolLemmas.ResendIsIdempotent` | main.py:59-63 | a property of the rule, not of any particular client's traffic: sending the same batch with ids `0..n-1` twice in a row leaves the same list as sending it once |
| `ProtocolLemmas.SparseIdAppendsAgain` | main.py:60-61 | ids are not indices: for any list, a record whose id is past the end appends one model at the end, and sending it again appends a second copy instead of moving the first |
| `Main.VisualizationApp.constructor` | main.py:75 | the scene starts with no models |
| `Main.VisualizationApp.AddModel` | main.py:134-138 | the list becomes the old list followed by one new model with the given type, position and yaw |
| `Main.VisualizationApp.ChangeModelPosition` | main.py:144-146 | raises exactly when the id is outside `-len..len-1`, and then changes nothing; otherwise it replaces the position and yaw of entry `id mod len`, keeps that entry's type and leaves every other entry and the length unchanged |
| `Main.ObjectServer.constructor` | main.py:50-54 | the server is bound to its scene and has emitted nothing |
| `Main.ObjectServer.Position` | main.py:57-65 | the scene's list becomes what `Upsert` gives for the batch; one `"ok"` response is emitted after the whole batch when it ran to the end, and none when a record raised |
| `Util.ObjectServer.constructor` | util.py:7-11 | the server is bound to its scene and has emitted nothing |
| `Util.ObjectServer.Position` | util.py:14-22 | the same handler as in main.py, with the same contract against `Upsert` and the acknowledgement |

## Left out

- Socket.IO server creation, the WSGI app, `eventlet.listen`, the listening thread in `run` and util.py's `close`: network I/O and concurrency. The handler is modelled as one call per delivered event, and emitting the acknowledgement is modelled as appending it to the server's `sent` log.
- The handler's `sid` argument: the handler never reads it.
- `json.loads` of the message: the handler takes an already decoded sequence of records. Malformed JSON, missing keys (`KeyError`) and ids that are not integers are not modelled.
- Panda3D effects of `add_model`: `loadModel` of the `.egg` file, `setScale`, `setP(270)`, `setColor` and `reparentTo`. These are foreign engine calls. Only the stored type, position and heading of each model are modelled. Failures inside these calls are not modelled: a `type` that names no `.egg` file makes `loadModel` (main.py:135) raise before the append, and a non-numeric position or yaw makes `setPos`/`setH` (main.py:137-138) raise after the append at main.py:136, leaving the new model in the list. In both cases the real handler stops and sends no `"ok"`; the model only raises on IndexError.
- util.py defines no scene class: its `visualization` is whatever object the caller passes in (util.py:7, util.py:11). Its handler is modelled as driving main.py's `VisualizationApp`, and its contract holds for that class only.
- Aliasing of scene nodes: models are values in a sequence. The Python list holds references to engine nodes, but no two entries share one.
- Settings loading (`SettingsManager` and the `*Settings` classes), `remapRGB`, the `* 0.5` polygon scale, the ground image, the camera key handlers and `reset_camera`: file I/O, float arithmetic and GUI callbacks over engine state.
- test_client.py's network loop: its batch shape (ids 0 and 1, sent repeatedly) appears only as the lemmas about consecutive ids and re-sending.
