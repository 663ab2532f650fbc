/**
 * The recording toast service used by the presenter tests
 * (`MockToastService`): it shows nothing and remembers every call.
 */
module ToastMock {
  import opened Wrappers
  import opened ToastStyles

  class MockToastService {
    var showToastCalled: bool
    var showToastCallCount: nat
    var lastStyle: Option<ToastStyle>
    var lastMessage: Option<string>
    var allMessages: seq<Toast>

    /**
     * The recorder's invariant: the counter is the log's length, the flag
     * says whether the log is non-empty, and the "last" fields are the
     * log's final entry (or nil while it is empty).
     */
    ghost predicate Valid()
      reads this
    {
      && showToastCallCount == |allMessages|
      && (showToastCalled <==> showToastCallCount > 0)
      && (if allMessages == [] then lastStyle == None && lastMessage == None
          else
            && lastStyle == Some(allMessages[|allMessages| - 1].style)
            && lastMessage == Some(allMessages[|allMessages| - 1].message))
    }

    /** The state of a new recorder, and the state `reset()` returns to. */
    ghost predicate IsInitial()
      reads this
    {
      && !showToastCalled
      && showToastCallCount == 0
      && lastStyle == None
      && lastMessage == None
      && allMessages == []
    }

    constructor ()
      ensures Valid() && IsInitial()
    {
      showToastCalled := false;
      showToastCallCount := 0;
      lastStyle := None;
      lastMessage := None;
      allMessages := [];
    }

    method ShowToast(style: ToastStyle, message: string)
      requires Valid()
      modifies this
      ensures Valid()
      ensures showToastCalled
      ensures showToastCallCount == old(showToastCallCount) + 1
      ensures lastStyle == Some(style) && lastMessage == Some(message)
      ensures allMessages == old(allMessages) + [Toast(style, message)]
    {
      showToastCalled := true;
      showToastCallCount := showToastCallCount + 1;
      lastStyle := Some(style);
      lastMessage := Some(message);
      allMessages := allMessages + [Toast(style, message)];
    }

    method Reset()
      modifies this
      ensures Valid() && IsInitial()
    {
      showToastCalled := false;
      showToastCallCount := 0;
      lastStyle := None;
      lastMessage := None;
      allMessages := [];
    }
  }

  /**
   * A call after a reset is the only one on record: the count is 1 and the
   * "last" fields and the log hold exactly that call.
   */
  method ShowAfterReset(service: MockToastService, style: ToastStyle, message: string)
    modifies service
    ensures service.Valid()
    ensures service.showToastCalled && service.showToastCallCount == 1
    ensures service.lastStyle == Some(style) && service.lastMessage == Some(message)
    ensures service.allMessages == [Toast(style, message)]
  {
    service.Reset();
    service.ShowToast(style, message);
  }
}
