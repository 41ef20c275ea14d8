/**
 * The orchestrator: the state the `DOMContentLoaded` closure owns (the
 * model stage and the rotation accumulator) and the three callbacks that
 * drive it: the pinned section's `onUpdate`, the window's `resize`, and the
 * settling of the asset load.
 */
module Presentation {
  import opened Wrappers
  import opened Framing
  import opened Channels
  import opened Rotation
  import opened Lifecycle

  class ProductViewer {
    const stage: ModelStage
    const rotation: RotationAccumulator
    /** `currentRotation` at the moment the current model object joined the
        scene: the rotation that object never received. */
    ghost var rotationAtSwap: real

    ghost predicate Valid()
      reads this, stage, rotation
    {
      stage.Valid() && rotation.Valid() && stage.model.Some? &&
      stage.modelYaw == rotation.currentRotation - rotationAtSwap
    }

    /** Start-up: the closure variables, the placeholder installed and
        framed, then the load requested. */
    constructor (placeholder: ObjectId, size: Vec3, center: Vec3, windowWidth: int)
      ensures Valid() && fresh(stage) && fresh(rotation)
      ensures stage.scene == {placeholder} && stage.model == Some(placeholder)
      ensures stage.modelSize == Some(size)
      ensures stage.CurrentPose() == FramePose(size, center, windowWidth)
      ensures rotation.currentRotation == 0.0 && rotationAtSwap == 0.0
      ensures stage.loadPending
    {
      var s := new ModelStage();
      var r := new RotationAccumulator();
      s.InstallPlaceholder(placeholder, size, center, windowWidth);
      s.StartLoad();
      stage, rotation := s, r;
      rotationAtSwap := 0.0;
    }

    /** `onUpdate({ progress })`: compute every channel for the tween engine
        and advance the rotation, turning the model by the applied delta. */
    method OnScroll(p: real) returns (values: ChannelValues)
      requires Valid()
      modifies rotation, stage`modelYaw
      ensures Valid() && rotationAtSwap == old(rotationAtSwap)
      ensures values == MapProgress(p)
      ensures rotation.currentRotation == Update(old(rotation.currentRotation), true, p).rotation
      ensures stage.modelYaw == old(stage.modelYaw) + Update(old(rotation.currentRotation), true, p).delta
    {
      values := MapProgress(p);
      var applied, delta := rotation.Apply(stage.model.Some?, p);
      if applied {
        stage.RotateModel(delta);
      }
    }

    /** The `resize` listener: measure the container (for the camera aspect
        and the renderer size, which are not modelled) and frame again. */
    method OnResize(container: Option<Size2>, window: Size2, center: Vec3) returns (viewport: Size2)
      requires Valid()
      modifies stage`modelPosition, stage`modelTilt, stage`cameraPosition
      ensures Valid()
      ensures viewport == ContainerSize(container, window)
      ensures stage.CurrentPose() == FramePose(stage.modelSize.value, center, window.width)
    {
      viewport := ContainerSize(container, window);
      stage.SetupModel(center, window.width);
    }

    /** The load callbacks. A loaded model replaces the placeholder at the
        accumulator's current value, so it starts out behind the target
        rotation by that value; a failed load keeps the placeholder. */
    method OnLoadSettled(outcome: LoadOutcome, windowWidth: int)
      requires Valid() && stage.loadPending
      modifies stage, this`rotationAtSwap
      ensures Valid() && !stage.loadPending
      ensures outcome.Loaded? ==>
                stage.scene == {outcome.obj} && stage.model == Some(outcome.obj) &&
                stage.modelSize == Some(outcome.size) &&
                stage.CurrentPose() == FramePose(outcome.size, outcome.center, windowWidth) &&
                stage.modelYaw == 0.0 && rotationAtSwap == rotation.currentRotation
      ensures outcome.LoadFailed? ==>
                stage.scene == old(stage.scene) && stage.model == old(stage.model) &&
                stage.modelSize == old(stage.modelSize) &&
                stage.CurrentPose() == old(stage.CurrentPose()) &&
                rotationAtSwap == old(rotationAtSwap)
    {
      stage.Settle(outcome, windowWidth);
      if outcome.Loaded? {
        rotationAtSwap := rotation.currentRotation;
      }
    }
  }
}
