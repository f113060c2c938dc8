/** A client of the polling model: the sessions a caller of GetUpdatesChan
    sees, worked out from the contracts of Poller alone. */
module Scenarios {

  import opened Wrappers
  import opened Types
  import opened Methods
  import opened Updates
  import opened Helpers

  method PollingSession() {
    var p := new Poller(NewUpdate(0));
    NewUpdateFirstRequest(0);
    assert p.NextRequest() == PostForm("getUpdates", []);

    var five, six, seven := Update(5, "a"), Update(6, "b"), Update(7, "c");
    p.Step(Fetched([five, six, seven]));
    assert p.offset == 8 && p.updates == [five, six, seven];

    p.Step(Fetched([]));
    assert p.offset == 8;

    // a reply body that cannot be read is a failed cycle
    p.Step(FetchResultOf(TransportError("unexpected EOF")));
    assert p.offset == 8 && p.updates == [five, six, seven];

    // an envelope that is not Ok is a failed cycle too
    p.Step(FetchResultOf(Delivered(ApiResponse(false, UpdateList([Update(9, "d")]), "Conflict"))));
    assert p.offset == 8 && p.updates == [five, six, seven];
  }

  method OutOfOrderBatch() {
    var p := new Poller(UpdateConfig(0, 100, 60));
    var seven, five, six := Update(7, "c"), Update(5, "a"), Update(6, "b");
    p.Step(Fetched([seven, five, six]));
    MaxNotLast(seven, five, six);
    assert p.offset == 8 && p.updates == [seven, five, six];
    assert p.limit == 100 && p.timeout == 60;

    // an update below the cursor is still published, and does not move it
    var late := Update(3, "late");
    p.Step(Fetched([late]));
    assert p.offset == 8 && p.updates == [seven, five, six, late];
  }
}
