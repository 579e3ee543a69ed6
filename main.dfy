/**
 * main.py: the scene's list of models (VisualizationApp) and the socket
 * server whose `position` event handler upserts a batch of records into it
 * (ObjectServer). Engine calls are reduced to their effect on the stored
 * (type, position, yaw) of each model.
 */
module Main {
  import opened Protocol

  class VisualizationApp {
    /** The models placed in the scene, in the order they were added. */
    var models: seq<Model>

    /** The application starts with no models. */
    constructor ()
      ensures models == []
    {
      models := [];
    }

    /** Loads a model of the given type and appends it to the end of the list at the given position and heading. */
    method AddModel(kind: string, position: Vec3, yaw: real)
      modifies this
      ensures models == old(models) + [Model(kind, position, yaw)]
    {
      models := models + [Model(kind, position, yaw)];
    }

    /**
     * Moves the model that `models[id]` denotes (Python indexing, negative ids
     * counting from the end) and turns it to `yaw`; its type is kept. An index
     * out of range raises IndexError, reported as `raised`, and changes nothing.
     */
    method ChangeModelPosition(id: int, position: Vec3, yaw: real) returns (raised: bool)
      modifies this
      ensures raised <==> !(-(|old(models)| as int) <= id < |old(models)|)
      ensures |models| == |old(models)|
      ensures raised ==> models == old(models)
      ensures !raised ==>
                var i := id % |models|;
                models == old(models)[i := Model(old(models)[i].kind, position, yaw)]
    {
      match PyIndex(id, |models|)
      case None =>
        raised := true;
      case Some(i) =>
        models := models[i := models[i].(position := position)];
        models := models[i := models[i].(yaw := yaw)];
        raised := false;
    }
  }

  class ObjectServer {
    /** The scene whose models the handler updates. */
    const visualization: VisualizationApp
    /** The messages emitted to the clients so far. */
    var sent: seq<Message>

    constructor (visualization: VisualizationApp)
      ensures this.visualization == visualization && sent == []
    {
      this.visualization := visualization;
      sent := [];
    }

    /**
     * The `position` event handler: applies the records of the batch in order,
     * appending when a record's id is at or beyond the end of the list and
     * moving an existing model otherwise, then emits one `"ok"`. An IndexError
     * leaves the records before it applied and emits nothing.
     */
    method Position(batch: seq<Record>)
      modifies this, visualization
      ensures visualization.models == Upsert(old(visualization.models), batch).models
      ensures sent == old(sent) + Acks(Upsert(old(visualization.models), batch))
    {
      for i := 0 to |batch|
        invariant Upsert(visualization.models, batch[i..]) == Upsert(old(visualization.models), batch)
        invariant sent == old(sent)
      {
        var element := batch[i];
        assert batch[i..][1..] == batch[i + 1..];
        if element.id >= |visualization.models| {
          visualization.AddModel(element.kind, element.position, element.yaw);
        } else {
          var raised := visualization.ChangeModelPosition(element.id, element.position, element.yaw);
          if raised {
            return;
          }
        }
      }
      sent := sent + [Ack];
    }
  }
}
