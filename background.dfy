/**
 * FastAPI's `BackgroundTasks`: work queued to run after the response is sent.
 * The model records what is queued and never runs it.
 */
module Background {

  class BackgroundTasks<T> {
    var tasks: seq<T>

    constructor()
      ensures tasks == []
    {
      tasks := [];
    }

    method AddTask(task: T)
      modifies this
      ensures tasks == old(tasks) + [task]
    {
      tasks := tasks + [task];
    }
  }
}
