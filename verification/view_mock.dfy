/**
 * The recording products view used by the presenter tests
 * (`MockProductsView`): it draws nothing and remembers what it was given.
 */
module ViewMock {
  import opened ProductsModel

  class MockProductsView {
    var setupInitialStateCalled: bool
    var applySnapshotCalled: bool
    var applySnapshotCallCount: nat
    var lastSnapshot: seq<Product>
    var lastAnimatingDifferences: bool

    /** The snapshot flag says whether any snapshot was applied. */
    ghost predicate Valid()
      reads this
    {
      applySnapshotCalled <==> applySnapshotCallCount > 0
    }

    constructor ()
      ensures Valid()
      ensures !setupInitialStateCalled && !applySnapshotCalled && applySnapshotCallCount == 0
      ensures lastSnapshot == [] && !lastAnimatingDifferences
    {
      setupInitialStateCalled := false;
      applySnapshotCalled := false;
      applySnapshotCallCount := 0;
      lastSnapshot := [];
      lastAnimatingDifferences := false;
    }

    /** Ignored by the recorder. */
    method ViewDidLoad()
      ensures unchanged(this)
    {
    }

    method SetupInitialState()
      modifies this`setupInitialStateCalled
      ensures old(Valid()) ==> Valid()
      ensures setupInitialStateCalled
    {
      setupInitialStateCalled := true;
    }

    method ApplySnapshot(model: seq<Product>, animatingDifferences: bool)
      modifies this`applySnapshotCalled, this`applySnapshotCallCount, this`lastSnapshot, this`lastAnimatingDifferences
      ensures Valid()
      ensures applySnapshotCalled
      ensures applySnapshotCallCount == old(applySnapshotCallCount) + 1
      ensures lastSnapshot == model && lastAnimatingDifferences == animatingDifferences
    {
      applySnapshotCalled := true;
      applySnapshotCallCount := applySnapshotCallCount + 1;
      lastSnapshot := model;
      lastAnimatingDifferences := animatingDifferences;
    }

    /** Ignored by the recorder. */
    method DidSelectProduct(id: int)
      ensures unchanged(this)
    {
    }
  }
}
