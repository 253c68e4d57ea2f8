# Module registration receivers

A receiver is a scheduler. It is handed "module registration" processes with
`enqueue`. Then `startRegistration` drives every process to completion and
returns the completed processes. Each iteration of its loop takes one process
and looks at its state:

- a NEW process is started;
- a TERMINATED process goes to the list of completed processes;
- any other process is interrupted so that it can do another quantum of work.

Every process that was not completed is put back to wait for another turn.
The three receivers differ only in where they take a process from and where
they put it back:

- **Round Robin** (`RRReceiver`) keeps one list. It serves the head and puts
  the process back at the tail.
- **Multi-level feedback queue** (`MLFQReceiver`) keeps a young list and an
  old list. It serves the head of the young list while there is one, and the
  head of the old list otherwise. A NEW process goes to the old list after it
  is started. An interrupted process goes to the old list while young
  processes still wait, and back to the young list otherwise.
- **Priority** (`PReceiver`) keeps a priority queue ordered by a hand-written
  comparator, and always polls a process of least priority value.

The files:

- `processes.dfy` models a process as a deterministic state machine. It has a
  priority, a state (NEW, RUNNING, WAITING or TERMINATED) and a number of
  steps it still needs. `Start` (only on NEW) and `Interrupt` (never on
  TERMINATED) each consume one step. A process is TERMINATED exactly when it
  has no steps left.
- `scheduling.dfy` holds what the receivers share. Queues hold process
  identities, and a table maps each identity to its current process. The
  step budget of a queue is the sum of "remaining steps + 1" over the queue.
  It bounds every run, so every run ends.
- `round_robin.dfy`, `mlfq.dfy` and `priority.dfy` each model one receiver.
  The shape is the same in each file:
  - a `Config` value (the lists, the process table and the results) and a
    `Step` function for one loop iteration;
  - lemmas about `Step`;
  - a class with the receiver's fields, whose `StartRegistration` method runs
    the loop with invariants.

  Round Robin and the feedback queue are deterministic. Their method is
  proved equal to a `Run` function, and the properties of `Run` are proved by
  induction. Which process `poll` returns among equal priorities is not
  determined by the priority receiver's code. So its method carries an
  invariant instead, and is proved against `Step` at whichever least process
  was polled.

Where the class comments and the code disagree, the model follows the code:

- `MLFQReceiver`: the comment at `MLFQReceiver.java:39-43` reads as "young
  processes go to the old list, old ones come back to the young list". The
  code routes by whether the young list is still non-empty, as described
  above. A lone process drawn from the young list is put straight back into
  the young list (`FeedbackQueue.LoneProcessStaysYoung`), so the two lists do
  not strictly alternate. A NEW process always goes to the old list. The old
  list never holds a NEW process (`FeedbackQueue.StepOldStarted`).
- `PReceiver`: the comment at `PReceiver.java:26-29` says that a process added
  to the queue ends up behind processes of equal priority. The comparator
  returns -1 for equal priorities in both argument orders
  (`PriorityScheduling.NotAntisymmetric`). That breaks the contract of
  `Comparator`, so the code fixes no order among equal priorities. The model
  lets `Poll` return any least process. What is proved holds for every such
  choice: the results come out sorted by priority.

## Model

| member | source | states |
|---|---|---|
| Processes.Start | src/ci583/receiver/RRReceiver.java:87-89 | Only a NEW process can be started. Starting it consumes one step and leaves it running, or TERMINATED exactly when that was its last step. Its priority is kept. |
| Processes.Interrupt | src/ci583/receiver/RRReceiver.java:97-100 | A process can be interrupted in any state but TERMINATED. Interrupting consumes one step and never leaves it NEW. It is TERMINATED exactly when that was its last step. Its priority is kept. |
| Scheduling.Serve | src/ci583/receiver/RRReceiver.java:86-103 | The action on a process that has not finished (start if NEW, interrupt otherwise) consumes exactly one step, keeps the priority, and never leaves it NEW. |
| Scheduling.DistinctSub | src/ci583/receiver/RRReceiver.java:80-105 | A queue whose multiset is contained in that of a duplicate-free queue is itself duplicate-free. The steps use this to keep their queues free of duplicates. |
| Scheduling.Budget | src/ci583/receiver/RRReceiver.java:80-105 | The step budget of a queue is at least its length, and larger than the remaining steps of its head. |
| Scheduling.ServeBudget | src/ci583/receiver/RRReceiver.java:82-102 | Serving the process just taken from a queue and putting it back at a tail lowers the total budget. Without duplicates it lowers it by exactly one. |
| RoundRobin.Step | src/ci583/receiver/RRReceiver.java:81-104 | One iteration keeps every queued process in the table and strictly lowers the step budget, so the loop terminates. |
| RoundRobin.StepShape | src/ci583/receiver/RRReceiver.java:82-103 | The head is removed. A TERMINATED head is appended to the results and not re-queued. A NEW head is started and appended at the tail. Any other head is interrupted and appended at the tail. |
| RoundRobin.StepRotates | src/ci583/receiver/RRReceiver.java:82-102 | A step that does not retire its process is a rotation. The others keep their order at the front, the served process is last, it has one step less, and the results are unchanged. |
| RoundRobin.StepConserves | src/ci583/receiver/RRReceiver.java:80-105 | The queue and the results together keep the same multiset of processes, and only queued processes stay queued. The results only grow at the end. The table's keys and priorities are kept, and every process but the served one is unchanged. |
| RoundRobin.StepRetires | src/ci583/receiver/RRReceiver.java:93-96 | If every result is TERMINATED before a step, it still is after it. |
| RoundRobin.StepExact | src/ci583/receiver/RRReceiver.java:80-105 | A queue without duplicates stays without duplicates, and each step costs exactly one unit of budget. |
| RoundRobin.Run | src/ci583/receiver/RRReceiver.java:80-105 | The loop run to the end leaves an empty queue. |
| RoundRobin.RunConserves | src/ci583/receiver/RRReceiver.java:80-107 | The final results hold every queued process exactly as often as it was queued, after the results already there. |
| RoundRobin.RunRetires | src/ci583/receiver/RRReceiver.java:93-107 | Every process in the final results is TERMINATED. |
| RoundRobin.RunKeeps | src/ci583/receiver/RRReceiver.java:80-105 | A run keeps the table's keys and every priority, and changes no process that was not queued. |
| RoundRobin.RunRounds | src/ci583/receiver/RRReceiver.java:80-105 | Midway through a round, the processes still to serve this round have one step more to go than those already served. With no duplicates, the run then completes the processes in the order served-this-round followed by still-to-serve, the list's cyclic order. |
| RoundRobin.RunRetiresAll | src/ci583/receiver/RRReceiver.java:93-96 | A list whose processes are all TERMINATED is retired head first, so the results grow by exactly that list in its order. |
| RoundRobin.EqualWorkKeepsOrder | src/ci583/receiver/RRReceiver.java:80-107 | Fairness: processes that are queued once each and all need the same number of steps complete in the order they were queued. |
| RoundRobin.ShorterWorkOvertakes | src/ci583/receiver/RRReceiver.java:80-107 | With unequal work the order can change: a process needing two steps, queued before one needing one step, completes after it. |
| RoundRobin.Iterations | src/ci583/receiver/RRReceiver.java:80-105 | The loop makes at most budget-many iterations, and exactly that many when no process is queued twice. |
| RoundRobin.RRReceiver.constructor | src/ci583/receiver/RRReceiver.java:25-29 | A new receiver has an empty queue. |
| RoundRobin.RRReceiver.Enqueue | src/ci583/receiver/RRReceiver.java:36-38 | The process is appended at the tail, every earlier element stays in place, and the table records it. |
| RoundRobin.RRReceiver.ServeHead | src/ci583/receiver/RRReceiver.java:82-103 | One loop iteration on the fields is exactly `Step`: it starts only NEW processes and never interrupts a TERMINATED one. |
| RoundRobin.RRReceiver.StartRegistration | src/ci583/receiver/RRReceiver.java:74-108 | On return the queue is empty and the state equals `Run` of the initial state. The results are a permutation of the queued processes, all TERMINATED. Keys and priorities are kept, and processes that were not queued are untouched. |
| FeedbackQueue.SelectionSplits | src/ci583/receiver/MLFQReceiver.java:56-63 | Selection takes the head of the young list if there is one, else the head of the old list. It removes exactly that one process from the two lists and its share from the budget. |
| FeedbackQueue.Step | src/ci583/receiver/MLFQReceiver.java:54-89 | One iteration keeps every queued process in the table and strictly lowers the budget of both lists together, so the loop terminates. |
| FeedbackQueue.StepShape | src/ci583/receiver/MLFQReceiver.java:56-89 | Case by case, where the selected process goes: started NEW to the old list; TERMINATED to the completed list; interrupted to the old list while the young list still holds something, to the young list otherwise. |
| FeedbackQueue.YoungFirst | src/ci583/receiver/MLFQReceiver.java:56-63 | While the young list is non-empty, the step takes its head. The old list loses nothing from its front, and the rest of the young list keeps its order. |
| FeedbackQueue.YoungNeverGrows | src/ci583/receiver/MLFQReceiver.java:78-88 | The young list never grows, except from empty to a single process. |
| FeedbackQueue.LoneProcessStaysYoung | src/ci583/receiver/MLFQReceiver.java:81-87 | A started process alone in the young list is put straight back into it, and the old list is unchanged. |
| FeedbackQueue.StepOldStarted | src/ci583/receiver/MLFQReceiver.java:68-73 | The old list never holds a NEW process, so a process drawn from it is never started. |
| FeedbackQueue.StepConserves | src/ci583/receiver/MLFQReceiver.java:53-91 | The two lists and the completed list together keep the same multiset of processes. The completed list only grows at the end. |
| FeedbackQueue.StepDistinct | src/ci583/receiver/MLFQReceiver.java:53-91 | No double servicing: if the two lists together hold no duplicates before a step, they hold none after it. |
| FeedbackQueue.StepTouchesServed | src/ci583/receiver/MLFQReceiver.java:65-89 | Nothing unqueued becomes queued. The table's keys and priorities are kept, and only the served process changes. |
| FeedbackQueue.StepRetires | src/ci583/receiver/MLFQReceiver.java:74-77 | If every completed process is TERMINATED before a step, it still is after it. |
| FeedbackQueue.Run | src/ci583/receiver/MLFQReceiver.java:53-92 | The loop run to the end leaves both lists empty. |
| FeedbackQueue.RunConserves | src/ci583/receiver/MLFQReceiver.java:53-92 | The completed list ends up holding every process of both lists exactly as often as it was queued, after those completed before. |
| FeedbackQueue.RunRetires | src/ci583/receiver/MLFQReceiver.java:74-92 | Every completed process is TERMINATED. |
| FeedbackQueue.RunKeeps | src/ci583/receiver/MLFQReceiver.java:53-91 | A run keeps the table's keys and every priority, and changes no process that was not queued. |
| FeedbackQueue.MLFQReceiver.constructor | src/ci583/receiver/MLFQReceiver.java:15-19 | A new receiver has two empty lists. |
| FeedbackQueue.MLFQReceiver.Enqueue | src/ci583/receiver/MLFQReceiver.java:26-28 | The process is appended to the young list only. The old list is unchanged. |
| FeedbackQueue.MLFQReceiver.ServeNext | src/ci583/receiver/MLFQReceiver.java:54-89 | One loop iteration on the fields is exactly `Step`: it starts only NEW processes and never interrupts a TERMINATED one. |
| FeedbackQueue.MLFQReceiver.StartRegistration | src/ci583/receiver/MLFQReceiver.java:48-94 | On return both lists are empty and the state equals `Run` of the initial state. The completed processes are a permutation of both lists, all TERMINATED. Keys and priorities are kept, and processes that were not queued are untouched. |
| PriorityScheduling.IntegerCompare | src/ci583/receiver/PReceiver.java:38 | Returns -1, 0 or 1: negative exactly when the first is smaller, zero exactly when they are equal. |
| PriorityScheduling.ComparePriority | src/ci583/receiver/PReceiver.java:34-40 | The comparator never returns 0. It returns -1 exactly when p1 <= p2 and 1 exactly when p1 > p2. |
| PriorityScheduling.EqualPrioritiesBothLess | src/ci583/receiver/PReceiver.java:35-36 | Two equal priorities each compare as less than the other. |
| PriorityScheduling.NotAntisymmetric | src/ci583/receiver/PReceiver.java:35-36 | Some pair has compare(a, b) != -compare(b, a), so the comparator breaks antisymmetry. |
| PriorityScheduling.CompareTransitive | src/ci583/receiver/PReceiver.java:34-40 | The comparator's "less" is `<=` on priorities, so it is transitive. |
| PriorityScheduling.LeastExists | src/ci583/receiver/PReceiver.java:69 | A non-empty queue holds a process such that no queued process has a smaller priority. |
| PriorityScheduling.Step | src/ci583/receiver/PReceiver.java:69-86 | One iteration, with the polled process at any position, keeps every queued process in the table and strictly lowers the budget. |
| PriorityScheduling.StepShape | src/ci583/receiver/PReceiver.java:69-85 | The polled process is removed. A TERMINATED one is appended to the results and not re-added. A NEW one is started and re-added. Any other is interrupted and re-added. |
| PriorityScheduling.StepConserves | src/ci583/receiver/PReceiver.java:68-89 | The queue and the results together keep the same multiset of processes. |
| PriorityScheduling.StepDistinct | src/ci583/receiver/PReceiver.java:68-89 | No double servicing: a queue without duplicates has none after a step. |
| PriorityScheduling.StepFollows | src/ci583/receiver/PReceiver.java:68-89 | A step keeps the table's keys and priorities, changes only queued processes, and queues nothing new. |
| PriorityScheduling.StepRetires | src/ci583/receiver/PReceiver.java:78-80 | If every result is TERMINATED before a step, it still is after it. |
| PriorityScheduling.StepAhead | src/ci583/receiver/PReceiver.java:68-89 | When a least process is polled, no queued process has a smaller priority than any completed one. |
| PriorityScheduling.StepSorted | src/ci583/receiver/PReceiver.java:68-89 | When completed processes precede the queue, the results stay sorted by priority. |
| PriorityScheduling.Finished | src/ci583/receiver/PReceiver.java:68-89 | Once the queue is empty, the loop invariant gives the promised outcome: results that are a permutation of the queue, TERMINATED and sorted, with keys, priorities and unqueued processes kept. |
| PriorityScheduling.StepKeepsInvariant | src/ci583/receiver/PReceiver.java:68-89 | An iteration that polls a least process keeps the whole loop invariant. |
| PriorityScheduling.PReceiver.constructor | src/ci583/receiver/PReceiver.java:32-42 | A new receiver has an empty queue. |
| PriorityScheduling.PReceiver.Enqueue | src/ci583/receiver/PReceiver.java:45-46 | The queue's multiset grows by exactly the added process, and the table records it. |
| PriorityScheduling.PReceiver.Poll | src/ci583/receiver/PReceiver.java:69 | Removes exactly one occurrence of a process of least priority and returns it. No other process and no process state changes. |
| PriorityScheduling.PReceiver.ServeLeast | src/ci583/receiver/PReceiver.java:69-86 | One loop iteration on the fields is exactly `Step` at the polled position, and the polled process is a least one. It starts only NEW processes and never interrupts a TERMINATED one. |
| PriorityScheduling.PReceiver.StartRegistration | src/ci583/receiver/PReceiver.java:65-90 | On return the queue is empty. The results are a permutation of the queued processes, all TERMINATED, and sorted by priority. Keys and priorities are kept, and processes that were not queued are untouched. |

## Left out

- Timing: `pauseForQuantum`, `sleepForQuantum`, `Thread.sleep` and their `InterruptedException` handling only wait on the clock. They are no-ops here, and the quantum passed to each constructor is not modelled.
- Logging: the `System.out` and `System.err` lines only write to the console.
- Concurrency: a real process is a thread whose state changes while the scheduler sleeps. Here it is a deterministic state machine. Each start or interrupt consumes one step of a finite budget, and nothing happens between scheduler steps.
- Thread states: Java's `Thread.State` has more values than the four modelled. The receivers only tell NEW and TERMINATED apart from "anything else", which RUNNING and WAITING stand for.
- Processes that never finish are not modelled. Every process has a finite step budget, which is what makes every run terminate.
- The process class `ModuleRegister` and the base class `ModRegReceiver` are not part of this model. Their behaviour is assumed as described for `processes.dfy`.
- `java.util.PriorityQueue` internals: the heap layout and the order among equal priorities are not modelled. The queue is a sequence. `Poll` and `Step` name a position in it, but no proved property depends on its order.
- PriorityScheduling.PReceiver.Enqueue: states the new contents as a multiset, not a position, because the heap's storage order is not modelled.
- PriorityScheduling.PReceiver.Poll: leaves open which least process is returned among equal priorities, because the comparator gives ties no order.
- The unused import in `RRReceiver.java` is not modelled.
- Enqueueing an identity that is already known with a different state is excluded by `Enqueue`'s precondition. The table holds one state per identity, like one object enqueued twice.
