/**
 * The two stores as the running processes share them, together with the run so far. Every service below changes the
 * world only by steps of the protocol, so whatever holds in every state of every run holds for the services.
 */
module World {
  import opened Pipeline

  class World {
    const config: Config
    var state: State
    ghost var run: Run

    ghost predicate Valid()
      reads this
    {
      IsHistory(config, run) && state == Last(run)
    }

    constructor (c: Config)
      ensures Valid() && config == c && state == Init && run == Run([Init], [])
    {
      config, state, run := c, Init, Run([Init], []);
    }

    /** One step of the protocol. */
    method Take(step: Step, next: State)
      requires Valid() && Next(config, state, step, next)
      modifies this
      ensures Valid() && state == next && run.steps == old(run.steps) + [step]
      ensures run.states == old(run.states) + [next]
    {
      hide Next;
      ExtendIsHistory(config, run, step, next);
      state := next;
      run := Extend(run, step, next);
    }
  }
}
