/**
 * util.py: a second copy of the socket server with the same `position`
 * event handler, driving the same kind of scene as main.py.
 */
module Util {
  import opened Protocol
  import Main

  class ObjectServer {
    /** The scene whose models the handler updates. */
    const visualization: Main.VisualizationApp
    /** The messages emitted to the clients so far. */
    var sent: seq<Message>

    constructor (visualization: Main.VisualizationApp)
      ensures this.visualization == visualization && sent == []
    {
      this.visualization := visualization;
      sent := [];
    }

    /**
     * The `position` event handler, as in main.py: the records applied in
     * order by the upsert rule, then a single `"ok"`; nothing is emitted
     * when a record's index raises IndexError.
     */
    method Position(batch: seq<Record>)
      modifies this, visualization
      ensures visualization.models == Upsert(old(visualization.models), batch).models
      ensures sent == old(sent) + Acks(Upsert(old(visualization.models), batch))
    {
      for i := 0 to |batch|
        invariant Upsert(visualization.models, batch[i..]) == Upsert(old(visualization.models), batch)
        invariant sent == old(sent)
      {
        var element := batch[i];
        assert batch[i..][1..] == batch[i + 1..];
        if element.id >= |visualization.models| {
          visualization.AddModel(element.kind, element.position, element.yaw);
        } else {
          var raised := visualization.ChangeModelPosition(element.id, element.position, element.yaw);
          if raised {
            return;
          }
        }
      }
      sent := sent + [Ack];
    }
  }
}
