/** What `ActorThreadPool` promises about one actor, as an atomic specification: submit, the end of a
    task and complete each happen in one indivisible step. */
module ActorSpec {

  /** The tasks submitted so far, how many of them were handed to the executor, how many have
      finished, and whether the actor is playing. */
  datatype ActorView<T> = ActorView(log: seq<T>, handed: nat, done: nat, busy: bool)

  ghost predicate ViewOk<T>(v: ActorView<T>) {
    && v.done <= v.handed <= |v.log|
    && v.handed <= v.done + 1
    && (!v.busy ==> v.done == |v.log|)
  }

  function SpecSubmit<T>(v: ActorView<T>, r: T): ActorView<T> {
    ActorView(v.log + [r], if v.busy then v.handed else v.handed + 1, v.done, true)
  }

  function SpecFinish<T>(v: ActorView<T>): ActorView<T> {
    v.(done := v.done + 1)
  }

  function SpecComplete<T>(v: ActorView<T>): ActorView<T> {
    if v.handed < |v.log| then v.(handed := v.handed + 1) else v.(busy := false)
  }
}
