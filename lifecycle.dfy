/**
 * The model lifecycle: the closure variables `model` and `modelSize`, the
 * scene that holds the active model, and the transforms `setupModel`
 * writes. A placeholder is installed synchronously at start-up; the one
 * asset load either replaces it or leaves it in place for good.
 *
 * Scene objects are abstracted as ids; the lights the page also adds to
 * the scene are not modelled, so `scene` holds model objects only.
 */
module Lifecycle {
  import opened Wrappers
  import opened Framing

  type ObjectId = nat

  /** How `loader.load` settles: the success callback with the loaded
      scene's id and its bounding box, or the error callback. */
  datatype LoadOutcome = Loaded(obj: ObjectId, size: Vec3, center: Vec3) | LoadFailed

  class ModelStage {
    var scene: set<ObjectId>
    var model: Option<ObjectId>
    var modelSize: Option<Vec3>
    var modelPosition: Vec3
    var modelTilt: real
    var cameraPosition: Vec3
    /** The yaw applied to the current model object by `rotateOnAxis`. */
    ghost var modelYaw: real
    /** The asset load has been started and has not settled yet. */
    ghost var loadPending: bool

    /** The scene holds the active model and nothing else, and a model is
        never without its size. */
    ghost predicate Valid()
      reads this
    {
      scene == (if model.Some? then {model.value} else {}) &&
      (model.Some? <==> modelSize.Some?)
    }

    function CurrentPose(): Pose
      reads this
    {
      Pose(modelPosition, modelTilt, cameraPosition)
    }

    /** `let model, modelSize;` and a fresh scene and camera. */
    constructor ()
      ensures Valid() && scene == {} && model == None && modelSize == None
      ensures modelYaw == 0.0 && !loadPending
    {
      scene := {};
      model := None;
      modelSize := None;
      modelPosition := Vec3(0.0, 0.0, 0.0);
      modelTilt := 0.0;
      cameraPosition := Vec3(0.0, 0.0, 0.0);
      modelYaw := 0.0;
      loadPending := false;
    }

    /** `setupModel()`: frame the active model, whose bounding box is
        currently centred at `center`, for a window `windowWidth` wide;
        without a model or a size it does nothing. */
    method SetupModel(center: Vec3, windowWidth: int)
      modifies this`modelPosition, this`modelTilt, this`cameraPosition
      ensures model.Some? && modelSize.Some? ==>
                CurrentPose() == FramePose(modelSize.value, center, windowWidth)
      ensures model.None? || modelSize.None? ==> CurrentPose() == old(CurrentPose())
    {
      if model.None? || modelSize.None? {
        return;
      }
      var pose := FramePose(modelSize.value, center, windowWidth);
      modelPosition := pose.modelPosition;
      modelTilt := pose.modelTilt;
      cameraPosition := pose.cameraPosition;
    }

    /** Start-up: the placeholder becomes the model, joins the scene, its
        size is measured and it is framed, all before the load begins. */
    method InstallPlaceholder(placeholder: ObjectId, size: Vec3, center: Vec3, windowWidth: int)
      requires Valid() && model == None && !loadPending
      modifies this
      ensures Valid()
      ensures scene == {placeholder} && model == Some(placeholder) && modelSize == Some(size)
      ensures CurrentPose() == FramePose(size, center, windowWidth)
      ensures modelYaw == 0.0 && !loadPending
    {
      model := Some(placeholder);
      scene := scene + {placeholder};
      modelSize := Some(size);
      modelYaw := 0.0;
      SetupModel(center, windowWidth);
    }

    /** `loader.load(...)`: the one load request, made once a model is in place. */
    method StartLoad()
      requires Valid() && model.Some? && !loadPending
      modifies this`loadPending
      ensures loadPending
    {
      loadPending := true;
    }

    /** The settled load. On success the old model leaves the scene before
        the loaded one joins it, which becomes the model with its own size
        and is framed; on error nothing changes, and nothing is retried. */
    method Settle(outcome: LoadOutcome, windowWidth: int)
      requires Valid() && loadPending
      modifies this
      ensures Valid() && !loadPending
      ensures outcome.Loaded? ==>
                scene == {outcome.obj} && model == Some(outcome.obj) &&
                modelSize == Some(outcome.size) &&
                CurrentPose() == FramePose(outcome.size, outcome.center, windowWidth) &&
                modelYaw == 0.0
      ensures outcome.LoadFailed? ==>
                scene == old(scene) && model == old(model) && modelSize == old(modelSize) &&
                CurrentPose() == old(CurrentPose()) && modelYaw == old(modelYaw)
    {
      loadPending := false;
      match outcome
      case Loaded(obj, size, center) =>
        if model.Some? {
          scene := scene - {model.value};
        }
        model := Some(obj);
        modelYaw := 0.0;
        modelSize := Some(size);
        scene := scene + {obj};
        SetupModel(center, windowWidth);
      case LoadFailed =>
    }

    /** `model.rotateOnAxis(yAxis, angle)`, seen as the model's yaw. */
    method RotateModel(angle: real)
      modifies this`modelYaw
      ensures modelYaw == old(modelYaw) + angle
    {
      modelYaw := modelYaw + angle;
    }
  }
}
