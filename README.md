# MoreDS containers in Dafny

A model of the two generic containers of the MoreDS TypeScript library:

- `Queue<T>` (`src/queue.ts`) is first-in-first-out.
- `Stack<T>` (`src/stack.ts`) is last-in-first-out.

Each is a class whose one private array, `#items`, is changed in place by its methods. In the model each is a Dafny `class` with a field `items: seq<T>`. The mutating methods reassign that field under `modifies this`, and their `ensures` give the new `items` in terms of `old(items)`.

Two things from JavaScript are written out as data (module `Outcomes`, `outcomes.dfy`):

- A value the caller may leave `undefined` is an `Option<T>`, and `None` is `undefined`.
- A thrown `Error` is the `Err` case of `Result<T>`. It carries one of two tags: `InvalidArgument` (an insertion of `undefined`) or `EmptyContainer` (a removal, a peek or the stack's `getAll` on an empty container).

Stack's `getAll` returns `this.#items.reverse()`. `Array.prototype.reverse` reverses the array in place, so every `getAll` also flips the stack's own order. After one call, `peek` and `pop` see what used to be the bottom element. `Stacks.Stack.GetAll` models exactly this (`items := Reversed(items)`). `Stacks.PopAfterGetAll` and `Stacks.GetAllTwice` prove what follows from it.

Beside the classes there are client methods. Each builds or drives a container through its public methods only and proves a property of a sequence of calls:

- the FIFO and LIFO round trips;
- peek agreeing with the next removal;
- emptiness agreeing with size;
- two fixed call sequences: push 1, 2, 3 on a stack, and enqueue "a", "b", "c" on a queue.

## Model

| member | source | states |
|---|---|---|
| Queues.Queue.constructor | src/queue.ts:13-15 | a new queue holds no element |
| Queues.Queue.Size | src/queue.ts:21-23 | the answer is the number of elements held |
| Queues.Queue.IsEmpty | src/queue.ts:29-31 | true exactly when the queue holds no element |
| Queues.Queue.Enqueue | src/queue.ts:38-42 | `undefined` gives `InvalidArgument` and leaves items unchanged; any other value gives `true` and items become `old(items) + [v]`, so the size grows by one |
| Queues.Queue.Dequeue | src/queue.ts:49-52 | on an empty queue: `EmptyContainer`, and the queue stays empty; otherwise returns `old(items)[0]` and leaves `old(items)[1..]` |
| Queues.Queue.Peek | src/queue.ts:59-62 | on an empty queue: `EmptyContainer`; otherwise `items[0]`; changes nothing (no `modifies`) |
| Queues.Queue.Clear | src/queue.ts:68-71 | returns 0 and leaves items empty |
| Queues.Queue.GetAll | src/queue.ts:77-79 | never fails, not even when empty; returns the items front first and changes nothing |
| Queues.FifoRoundTrip | src/queue.ts:38-52 | enqueuing e1..en onto a new queue and dequeuing n times gives back exactly e1..en |
| Queues.EmptyExactlyWhenSizeZero | src/queue.ts:21-31 | `isEmpty()` holds exactly when `size()` is 0 |
| Queues.PeekThenDequeue | src/queue.ts:49-62 | peek returns the same outcome as the dequeue that follows it, and that dequeue removes only the front |
| Queues.Scenario | src/queue.ts:38-79 | enqueue "a", "b", "c": peek gives "a"; dequeues give "a", "b", "c"; the size ends at 0; getAll on the empty queue gives the empty sequence |
| Stacks.Reversed | src/stack.ts:80 | the reversal used by `getAll` has the length of its input |
| Stacks.ReversedAt | src/stack.ts:80 | position k of the reversal holds position `|s|-1-k` of the input |
| Stacks.ReversedTwice | src/stack.ts:80 | reversing twice restores the original order |
| Stacks.Stack.constructor | src/stack.ts:12-14 | a new stack holds no element |
| Stacks.Stack.Size | src/stack.ts:20-22 | the answer is the number of elements held |
| Stacks.Stack.IsEmpty | src/stack.ts:28-30 | true exactly when the stack holds no element |
| Stacks.Stack.Push | src/stack.ts:38-42 | `undefined` gives `InvalidArgument` and leaves items unchanged; any other value gives `true` and items become `old(items) + [v]` |
| Stacks.Stack.Pop | src/stack.ts:49-52 | on an empty stack: `EmptyContainer`, and the stack stays empty; otherwise returns the last element and leaves `old(items)[..|old(items)|-1]` |
| Stacks.Stack.Peek | src/stack.ts:59-62 | on an empty stack: `EmptyContainer`; otherwise the last element; changes nothing |
| Stacks.Stack.Clear | src/stack.ts:68-71 | returns 0 and leaves items empty |
| Stacks.Stack.GetAll | src/stack.ts:78-81 | on an empty stack: `EmptyContainer`, nothing changed; otherwise items become `Reversed(old(items))` in place and that sequence is returned |
| Stacks.LifoRoundTrip | src/stack.ts:38-52 | pushing p1..pn onto a new stack and popping n times gives pn..p1 |
| Stacks.PopAfterGetAll | src/stack.ts:49-81 | after `getAll`, `pop` returns the former bottom element `old(items)[0]` and leaves the reversal of `old(items)[1..]`; on an empty stack both calls fail |
| Stacks.GetAllTwice | src/stack.ts:78-81 | two `getAll` calls in a row restore the original order: the second returns `old(items)` |
| Stacks.PeekThenPop | src/stack.ts:49-62 | peek returns the same outcome as the pop that follows it, and that pop removes only the top |
| Stacks.EmptyExactlyWhenSizeZero | src/stack.ts:20-30 | `isEmpty()` holds exactly when `size()` is 0 |
| Stacks.Scenario | src/stack.ts:38-81 | push 1, 2, 3: peek gives 3; pops give 3, 2, 1; the size ends at 0; getAll on the empty stack fails with `EmptyContainer` |

## Left out

- Queues.Queue.GetAll: TypeScript's `Queue.getAll` (src/queue.ts:78) returns its live backing array, so a caller can change the queue's contents through it. The model returns the contents as a value and does not model that aliasing.
- Stacks.Stack.GetAll: in TypeScript's `Stack.getAll` (src/stack.ts:80), the array that `reverse()` returns is the stack's own backing array, so the same aliasing applies. The model returns the reversed contents as a value.
- Sizes are `nat`. JavaScript `number` (floating point) does not matter at these sizes.
- The running cost of `shift`, of array growth and of `reverse` is left out. These are run-time library internals.
- Error messages and the `Error` class are left out. Each thrown error is one of the two outcome tags.
- Only `undefined` is refused on insertion, exactly as in TypeScript's `enqueue` and `push` (src/queue.ts:39, src/stack.ts:39). `null` and other falsy values are ordinary elements; `Option` expresses just that one check.
- The containers have no concurrency, I/O or serialisation.
