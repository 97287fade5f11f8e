/** The `post_save` receiver of `Registration` and the task queue it feeds. */
module Receivers {
  import opened Schema

  /** The broker queue of `retrieve_image_task`: the plates of the tasks sent with
      `.delay()`, oldest first. */
  class TaskQueue {
    var tasks: seq<string>

    constructor ()
      ensures tasks == []
    {
      tasks := [];
    }

    /** `retrieve_image_task.delay(plate=plate)` */
    method Delay(plate: string)
      modifies this
      ensures tasks == old(tasks) + [plate]
    {
      tasks := tasks + [plate];
    }
  }

  /** The tasks one save sends: one task carrying the plate when `retrieve_image` is set,
      none otherwise. Creation and update are not told apart. */
  function Triggered(instance: Registration): (t: seq<string>)
    ensures |t| == (if instance.retrieveImage then 1 else 0)
    ensures forall p :: p in t ==> p == instance.plate
  {
    if instance.retrieveImage then [instance.plate] else []
  }

  /** `registration_post_save_receiver`: runs after every successful save and leaves the
      instance as it is. */
  method RegistrationPostSave(queue: TaskQueue, instance: Registration)
    modifies queue
    ensures queue.tasks == old(queue.tasks) + Triggered(instance)
  {
    if instance.retrieveImage {
      queue.Delay(instance.plate);
    }
  }
}
