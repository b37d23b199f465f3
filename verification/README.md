# Verified models of a Go and Lua game-server engine

The engine runs game servers behind gates: clients connect to a gate, the gate forwards their
messages to a game process, entities live there, and a database process stores them. This project
models the parts of it whose correctness is not obvious from one function, and proves what they
are for.

| File | What it models |
| --- | --- |
| `TaskQueue.dfy` | the lock-free task queue: any number of threads, one transition per atomic load or compare-and-swap |
| `RingBuffer.dfy`, `Protocol.dfy`, `TcpClient.dfy` | the growing and shrinking byte ring, the length-prefixed framing, and the client that joins them |
| `Varint.dfy`, `WireFormat.dfy`, `Message.dfy` | the generated Protocol Buffers code: varints, skipping of unknown fields, three message types |
| `Json.dfy` | the Lua JSON printer and parser |
| `Calendar.dfy` | day numbers, Gregorian dates and ISO week dates |
| `DelayQueue.dfy`, `TimerWheel.dfy`, `Timers.dfy`, `Ticks.dfy` | the bucket heap, the chain of timer wheels, the timer manager, and what a tick promises |
| `Callbacks.dfy`, `Server.dfy` | the table of requests that wait for an answer, and the server in whose ticks timers and requests run |
| `BufferedTasks.dfy` | the per-entity buffer of database tasks |
| `Entities.dfy`, `EntityRuns.dfy`, `EntityManager.dfy`, `Bindings.dfy` | the entity lifecycle, the connection index, and the gate's mirror of client bindings |
| `IdGenerator.dfy` | the entity id generator |
| `BitOps.dfy`, `Common.dfy` | bitwise operations on natural numbers; option and result types, minimum and maximum |

Code that updates objects is modelled by classes whose methods are proved equal to a function of
the old state, and the properties are proved about those functions, over all runs where runs
matter. Concurrency is a transition relation. Objects that point at each other (wheels, buckets
and timers; entities) live in sequences or maps indexed by their identity.

## What the proofs found

Some properties one might expect do not hold; the code is modelled as it is, with the exact
condition proved.

- Framing: `Encode` accepts messages four bytes longer than `Decode` does
  (`Protocol.RoundTrip`, `TcpClients.DeliversAllIffFits`).
- Task buffer: that a push meets an empty list is not enough for tasks to run one at a time; the
  entity must have nothing outstanding at all (`BufferedTasks.EmptyListIsNotEnough`,
  `BufferedTasks.OverlapIffBusy`).
- Ids: the 17th call of a second waits on a clock in milliseconds, gives 0, and the 18th repeats
  an id (`IdGenerator.IncreasingIffPaced`, `IdGenerator.EighteenthRepeats`).
- JSON: escapes are read as the text they denote exactly when no surrogate among them is
  unpaired; a high surrogate followed by any `\u` escape is combined with it, which may even
  lead past the last code point (`Json.UnicodeEscapes`, `Json.UnpairedIsCombined`).
- JSON: the decoder takes in more than the grammar of RFC 8259, namely commas before closing
  brackets and leading zeros; what it takes in is stated as an if-and-only-if
  (`Json.DecodesIffSpelled`, `Json.CommaAtTheEnd`).
- Dates: the limit check looks at the day number before the carry, so it accepts days outside
  and refuses days inside; the condition for either is exact (`Calendar.LimitCheckMissesCarry`,
  `Calendar.MissedCarries`).
- Timers: the next run of a timer can be made to come two ticks or more ahead of its time if and
  only if a bucket it has left still lists it and comes up that early
  (`Servers.Server.MakeEarly` for the one half, `Servers.Server.Drive` and
  `Ticks.EarlyOnlyIfStale` for the other); such states are reached (`Servers.ReachStale`).
- Requests: after a tick no request sent before it is overdue, unless somebody cancelled its
  timer by its id (`Servers.Server.HandleMainTick`); one sent inside the tick with no time to wait
  can be (`Servers.SendInTick`), until the next one.
- Bindings: the gate deletes a binding without looking at the entity, so its table is right
  exactly while no client is asked for by a second entity (`Bindings.UpdatedMirror`).
- Gates: when a gate goes down, entities that have moved on to a client of another gate but are
  still listed under the old one lose that client too (`EntityRuns.GateRemovedKeeps`,
  `EntityRuns.LostThroughStale`).
- Entities: a destroy that is not immediate leaves a persistent entity with a client ready
  (`Entities.DelayedDestroyWaits`).
- Entities: a persistent entity is saved before it is finalised unless its set-up failed or a
  destroy that does not ask for a save gets through to it, be it one repeated ten seconds after a
  destroy whose save is still not confirmed (`EntityRuns.FinalisedIff`,
  `EntityRuns.SavedBeforeFinal`).

## Model

| member | source | states |
|---|---|---|
| TaskQueue.EnqueueMove | engine/engine/LockFree/task_queue.go:34-50 | every atomic step of an enqueue, from any stale snapshot, keeps the list a chain from head to last node and changes the queue only at a successful link |
| TaskQueue.DequeueMove | engine/engine/LockFree/task_queue.go:52-73 | every atomic step of a dequeue keeps the same, never dereferences a nil successor, and changes the queue only at a successful head swing |
| TaskQueue.LinkMove | engine/engine/LockFree/task_queue.go:40-45 | a successful link compare-and-swap appends the task at the very end of the list, although tail may have been stale |
| TaskQueue.TakeMove | engine/engine/LockFree/task_queue.go:66-69 | a successful head compare-and-swap removes exactly the oldest task and returns its value |
| TaskQueue.SwingMove | engine/engine/LockFree/task_queue.go:42-47 | a tail swing succeeds only from the current tail, to the next linked node |
| TaskQueue.NextLoaded | engine/engine/LockFree/task_queue.go:54-63 | why no re-check of head is needed: whatever was loaded before, head differing from tail implies a successor, and a nil successor implies an empty queue at that load |
| TaskQueue.ThreadStays | engine/engine/LockFree/task_queue.go:34-73 | what a thread knows about its snapshots survives every step of the other threads |
| TaskQueue.StepRefines | engine/engine/LockFree/task_queue.go:34-73 | one step of any thread keeps the global invariant and acts on the abstract queue as its event says |
| TaskQueue.ReachableInv | engine/engine/LockFree/task_queue.go:34-73 | every interleaving of any number of threads keeps the invariant, and replaying its commits gives the queue held in memory |
| TaskQueue.NoCrash | engine/engine/LockFree/task_queue.go:54-70 | in every run no thread dereferences nil, head stays at or before tail, and tail is the last node or the one before |
| TaskQueue.CallsWellFormed | engine/engine/LockFree/task_queue.go:34-73 | in every run each call takes effect exactly once between its start and its return, and returns what it took |
| TaskQueue.Linearizable | engine/engine/LockFree/task_queue.go:34-73 | every history of any number of enqueuers and dequeuers is a history of a sequential first-in first-out queue; nil is returned only when the queue was empty |
| TaskQueue.FifoHistory | engine/engine/LockFree/task_queue.go:34-73 | tasks come out in the order they were linked, each once, and none is lost or invented |
| TaskQueue.FailedLink | engine/engine/LockFree/task_queue.go:36-45 | a compare-and-swap on a link fails only because another thread's enqueue took effect since this thread looked at that node |
| TaskQueue.FailedTake | engine/engine/LockFree/task_queue.go:54-69 | a compare-and-swap on the head fails only because another thread's dequeue took effect since this thread looked at the head |
| TaskQueue.RankFalls | engine/engine/LockFree/task_queue.go:34-73 | every step that takes no effect brings its own thread nearer to one, however stale its snapshots are |
| TaskQueue.RankStays | engine/engine/LockFree/task_queue.go:34-73 | and throws no other thread back |
| TaskQueue.LockFree | engine/engine/LockFree/task_queue.go:34-73 | the queue is lock-free: with n threads, in any run, some call takes effect among any 12 n + 1 steps in a row, whoever takes them |
| TaskQueue.CountTracksLength | engine/engine/LockFree/task_queue.go:30-32 | the counter is the queue length plus the pending decrements minus the pending increments, in every reachable state |
| RingBuffers.FillBits | engine/engine/RingBuffer/ring_buffer.go:49-57 | for every non-negative 64-bit number the result has exactly the bits up to its highest bit set |
| RingBuffers.CeilToPowerOfTwo | engine/engine/RingBuffer/ring_buffer.go:36-47 | the least power of two that is at least max(n, 2); a panic exactly above 2^62 |
| RingBuffers.MaskIsMod | engine/engine/RingBuffer/ring_buffer.go:92-328 | masking with the size less one is the remainder modulo a power-of-two size |
| RingBuffers.RingBuffer.Length | engine/engine/RingBuffer/ring_buffer.go:289-302 | the number of bytes held, in each of the three index positions |
| RingBuffers.RingBuffer.Free | engine/engine/RingBuffer/ring_buffer.go:315-328 | with the length it adds up to the size |
| RingBuffers.RingBuffer.LazyRead | engine/engine/RingBuffer/ring_buffer.go:92-125 | the two slices together are the first bytes held, nothing consumed |
| RingBuffers.RingBuffer.LazyReadAll | engine/engine/RingBuffer/ring_buffer.go:128-144 | the two slices together are all bytes held |
| RingBuffers.RingBuffer.Shift | engine/engine/RingBuffer/ring_buffer.go:147-157 | drops a prefix; dropping everything halves the storage |
| RingBuffers.RingBuffer.Read | engine/engine/RingBuffer/ring_buffer.go:170-211 | moves as many bytes as both sides allow, in order, through the wrap-around; the error exactly for an empty buffer and a non-empty target |
| RingBuffers.RingBuffer.ReadByte | engine/engine/RingBuffer/ring_buffer.go:214-228 | takes the oldest byte, or fails on an empty buffer |
| RingBuffers.RingBuffer.Write | engine/engine/RingBuffer/ring_buffer.go:236-270 | appends, growing when needed; fails exactly when the grown size would pass 2^62 |
| RingBuffers.RingBuffer.WriteByte | engine/engine/RingBuffer/ring_buffer.go:273-286 | appends one byte |
| RingBuffers.RingBuffer.Reset | engine/engine/RingBuffer/ring_buffer.go:402-412 | empties the buffer and halves the storage, down to none |
| RingBuffers.RingBuffer.Malloc | engine/engine/RingBuffer/ring_buffer.go:414-429 | new storage of the least sufficient power of two, holding the old contents from its start |
| RingBuffers.RunOps | engine/engine/RingBuffer/ring_buffer.go:92-429 | every sequence of operations on a buffer of any initial size behaves as a byte sequence: append, drop a prefix, peek |
| Protocol.RoundTrip | engine/engine/protocol.go:89-116 | decoding an encoded message followed by anything gives it back exactly when it has at most messageMaxLen - 4 bytes, and the too-long error otherwise |
| Protocol.HeadAnnouncesLength | engine/engine/protocol.go:89-100 | the first four bytes, the most significant first, announce the length of the whole frame; the message follows as it is; messages of more than 16777216 bytes are refused |
| Protocol.DecodeReadsHead | engine/engine/protocol.go:103-116 | for every content of the buffer and the length its first four bytes announce: exactly when more bytes are asked for, when the length is refused, and which bytes are the frame |
| Protocol.PartialFrame | engine/engine/protocol.go:103-116 | any proper prefix of an encoding asks for more bytes |
| Protocol.FrameIsEncoding | engine/engine/protocol.go:103-116 | whatever decodes to a frame begins with the encoding of its data |
| TcpClients.TcpClient.Receive | engine/engine/tcp_client.go:149-162 | received bytes are appended to the pending ones |
| TcpClients.TcpClient.Send | engine/engine/tcp_client.go:242-263 | the framed message is queued for sending, or refused for its length |
| TcpClients.TcpClient.Tick | engine/engine/tcp_client.go:265-316 | at most one message is decoded, shifted out and delivered; a partial write keeps the unsent rest |
| TcpClients.Reassembly | engine/engine/tcp_client.go:149-162 | for any messages, any chunking of their stream and any interleaving of reads and ticks, the delivered messages are a prefix of those sent and the ring holds exactly the undelivered received bytes |
| TcpClients.EnoughTicks | engine/engine/tcp_client.go:274-296 | once everything has been received, one tick per message delivers everything deliverable |
| TcpClients.DeliversAllIffFits | engine/engine/tcp_client.go:274-296 | all messages are delivered if and only if none is longer than messageMaxLen - 4 bytes, and the client asks for a reconnect exactly when one is |
| TcpClients.Converse | engine/engine/tcp_client.go:149-316 | two clients joined by a byte stream, driven by any script: what the receiver got is a prefix of what the sender queued |
| Varints.SovIsLength | engine/message/message.pb.go:1498-1500 | the size computed from the bit length is the number of varint bytes |
| Varints.EncodeVarint | engine/message/message.pb.go:1262-1272 | the varint fills exactly the bytes before the offset and nothing else changes |
| Varints.VarintIs | engine/message/message.pb.go:1262-1272 | seven bits to a byte, the least significant first, 128 added to all bytes but the last, and no idle last byte |
| Varints.VarintReads | engine/message/message.pb.go:1589-1606 | what the reading loop makes of any bytes: the number that their seven-bit groups stand for, cut to the width, if a byte below 128 is among the first ten, and otherwise which of the two errors |
| Varints.ReadVarint | engine/message/message.pb.go:1589-1606 | the reading loop, error cases included, is the varint function at that position |
| Varints.VarintDecodes | engine/message/message.pb.go:1589-1606 | reading a written varint gives its value, cut to the field's width, and its length, whatever follows |
| Varints.SignedRoundTrip | engine/message/message.pb.go:1286-1322 | signed 64-bit and 32-bit numbers survive the conversion to unsigned and back |
| Varints.NegativeTakesTenBytes | engine/message/message.pb.go:1286-1322 | a negative number is always written in ten bytes |
| WireFormat.SkipMessage | engine/message/message.pb.go:3017-3094 | the skipping loop with its group depth is the skipping function, error cases included |
| WireFormat.SkipTag | engine/message/message.pb.go:3025-3094 | how far a field is skipped by the wire type in the lowest three bits of its tag, and which wire types are errors |
| WireFormat.FieldsOnTheWire | engine/message/message.pb.go:3025-3094 | the tag of each kind of field is eight times its number plus 0, 1, 2, 3 and 4, or 5; fixed values have eight and four bytes |
| WireFormat.SkipForeign | engine/message/message.pb.go:3017-3094 | a well-formed field of any wire type, with groups nested to any depth, is skipped exactly |
| WireFormat.ParseConcat | engine/message/message.pb.go:1586-1860 | unmarshalling two encodings in a row is unmarshalling the one and then the other |
| WireFormat.InsertForeign | engine/message/message.pb.go:1586-1860 | well-formed unknown fields between two parts of any message change nothing |
| Messages.SizeIsLength | engine/message/message.pb.go:1273-1322 | `Size` is the length of the encoding, nested message included |
| Messages.SizeOffset | engine/message/message.pb.go:1480-1496 | the size of a message with a repeated field is the length of its encoding |
| Messages.MarshalRequest | engine/message/message.pb.go:803-864 | the fields written from last to first fill exactly `Size` bytes before the end with the encoding and touch nothing else |
| Messages.Marshal | engine/message/message.pb.go:788-796 | a buffer of `Size` bytes is filled completely |
| Messages.MarshalOffset | engine/message/message.pb.go:1240-1260 | the same with the repeated field written from its last element to its first |
| Messages.ExtraOnTheWire | engine/message/message.proto:5-7 | the nested message is the tag 0x0a, the length and the bytes of its uuid, or nothing |
| Messages.RequestOnTheWire | engine/message/message.proto:10-19 | the encoding of a request is the sequence of well-formed records of its fields 1 to 8 in this order, zero and empty values left out, the nested message as field 7 whenever it is set |
| Messages.OffsetOnTheWire | engine/message/message.proto:77-80 | the time message is the record of field 1, if not zero, and one record of field 2 for every target |
| Messages.UnmarshalExtra | engine/message/message.pb.go:1504-1585 | the field loop is the parsing function, error cases included |
| Messages.UnmarshalRequest | engine/message/message.pb.go:1586-1860 | the field loop over eight fields is the parsing function, error cases included |
| Messages.UnmarshalOffset | engine/message/message.pb.go:2916-3016 | the field loop with a repeated field is the parsing function, error cases included |
| Messages.RequestReadsNumbers | engine/message/message.proto:10-19 | what fields 1, 2 and 8 do with any number, wider than the field ones included, wherever in the input they stand |
| Messages.RequestReadsBytes | engine/message/message.proto:10-19 | what fields 3 to 6 do with any bytes |
| Messages.RequestReadsExtra | engine/message/message.proto:10-19 | field 7 sets the nested message, whose uuid is its field 1 |
| Messages.OffsetReads | engine/message/message.proto:77-80 | what the two fields of the time message do with any number and any bytes |
| Messages.RequestRefuses | engine/message/message.pb.go:1615-1840 | a known field that comes with another wire type is an error |
| Messages.RequestMerges | engine/message/message.pb.go:1586-1860 | unmarshalling an encoding into a message that already holds something merges the two field by field |
| Messages.RequestRoundTrip | engine/message/message.pb.go:1586-1860 | unmarshalling what was marshalled gives the message back, negative ids and the nested message included |
| Messages.OffsetMerges | engine/message/message.pb.go:2916-3016 | repeated elements are appended to those already there |
| Messages.OffsetRoundTrip | engine/message/message.pb.go:2916-3016 | the same round trip for the repeated field and a signed 32-bit number |
| Messages.RequestIgnoresForeign | engine/message/message.pb.go:1840-1860 | any well-formed fields with unknown numbers between two parts of a request change nothing |
| Messages.ExtraIgnoresForeign | engine/message/message.pb.go:1565-1585 | the same for the nested message, for every field number but 1 |
| Messages.OffsetIgnoresForeign | engine/message/message.pb.go:2996-3016 | the same for the message with a repeated field |
| Messages.TransmitRequest | engine/message/message.pb.go:788-864 | end to end over a buffer: marshal, then unmarshal, is the identity |
| Json.EncodeValue | scripts/plugin/json.lua:59-131 | the printer's loops over a table's parts give the encoding of the value as it is walked |
| Json.NextChar | scripts/plugin/json.lua:165-172 | the scanning loop finds the first position outside, or inside, the given set |
| Json.ParseStringLoop | scripts/plugin/json.lua:218-256 | the string loop with its copied runs, escapes and error cases is the string function |
| Json.ParseValue | scripts/plugin/json.lua:365-372 | dispatch on the first character is the parsing function |
| Json.ParseArray | scripts/plugin/json.lua:280-304 | the array loop is the array function; its index advances in every round |
| Json.ParseObject | scripts/plugin/json.lua:307-341 | the object loop is the object function; its index advances in every round |
| Json.ParseNumberToken | scripts/plugin/json.lua:259-267 | a numeral runs to the next delimiter; a malformed one is an error |
| Json.NumberRefused | scripts/plugin/json.lua:259-267 | a number is refused exactly when its token is no numeral of section 2.1 of the Lua 5.1 manual, and given a value exactly when it is an integer of at most 15 digits |
| Json.ParseLiteralToken | scripts/plugin/json.lua:270-277 | a literal runs to the next delimiter |
| Json.DecodeText | scripts/plugin/json.lua:375-385 | one value with spaces around it, and nothing behind it |
| Json.DecodesIffSpelled | scripts/plugin/json.lua:153-385 | the whole language of the decoder: a byte string is decoded as a value if and only if it is a text, by the grammar written out in `Text`, that stands for this value, with any run of tabs, line feeds, carriage returns and blanks (section 2 of RFC 8259) around every token |
| Json.SpelledBack | scripts/plugin/json.lua:375-385 | every spelling of a value gives the value: any spaces around every token, characters escaped in any way, fields in any order |
| Json.TextParsed | scripts/plugin/json.lua:365-372 | a text at any position is read as what it stands for, up to the position behind it |
| Json.TextSound | scripts/plugin/json.lua:365-372 | and whatever is read there is a text |
| Json.StringParsed | scripts/plugin/json.lua:218-256 | a string made of plain characters, short escapes and `\u` escapes in any mixture is read as the bytes they stand for |
| Json.SpacesSkipped | scripts/plugin/json.lua:153-172 | a run of the four space characters is skipped up to the first other one |
| Json.CommaAtTheEnd | scripts/plugin/json.lua:280-304 | `[1,]` is read as an array of one element |
| Json.NullLeavesGap | scripts/plugin/json.lua:280-304 | `[null,1]` is read as a table with the single key 2 |
| Json.EncodeIsText | scripts/plugin/json.lua:59-131 | what the printer prints is one of these texts, without spaces, and it shows the value printed |
| Json.PrintedCharacters | scripts/plugin/json.lua:33-103 | what each of the 256 characters is printed as |
| Json.HexDigits | scripts/plugin/json.lua:49-51 | the hexadecimal digits that are printed, and the capital ones, are read as their values |
| Json.StringBack | scripts/plugin/json.lua:218-256 | an encoded byte string is read back, whatever bytes it holds and whatever stands around it |
| Json.NumeralBack | scripts/plugin/json.lua:106-112 | an integer below 10^14 in magnitude is printed as one token that is its numeral |
| Json.DecimalDigits | scripts/plugin/json.lua:106-112 | numbers are printed in decimal notation, with a minus sign if negative |
| Json.ValueBack | scripts/plugin/json.lua:365-372 | parsing the encoding of any nested value, in any surroundings, gives the value and the position behind it |
| Json.RepresentsMeaning | scripts/plugin/json.lua:59-98 | filling a table in any walking order gives the same table |
| Json.RoundTrip | scripts/plugin/json.lua:375-385 | decoding what was encoded gives the value back, for every nested value and every iteration order of its tables |
| Json.Utf8Correct | scripts/plugin/json.lua:189-203 | for every code point: an error exactly above U+10FFFF, and well-formed UTF-8 (section 4 of RFC 3629) of it exactly when it is not a surrogate |
| Json.Utf8Bytes | scripts/plugin/json.lua:189-203 | one to four bytes by the size of the code point, the leading byte with its mark, and six bits in each further byte |
| Json.UnicodeEscapes | scripts/plugin/json.lua:206-215 | for every escape the parser takes in: it becomes the UTF-8 of the text it denotes by section 7 of RFC 8259 if and only if no surrogate in it is unpaired; it is an error exactly when the two halves combine to more than U+10FFFF |
| Json.TextIffPaired | scripts/plugin/json.lua:206-215 | code units denote a text exactly when no surrogate among them is unpaired |
| Json.EscapedText | scripts/plugin/json.lua:229-245 | a run of escapes of any length that denotes a text is read as the UTF-8 of that text, whatever stands around it |
| Json.UnpairedIsCombined | scripts/plugin/json.lua:234-237 | D800 followed by an escape for U+0041 is read as the one character U+2441 |
| Calendar.EstimateIsClose | scripts/plugin/date.lua:118-120 | the year estimate with constants 14780 and 3652425 is the true March-based year or one more, for every integer day number |
| Calendar.CorrectedYear | scripts/plugin/date.lua:118-122 | the one conditional correction always reaches the true year |
| Calendar.MonthOfDay | scripts/plugin/date.lua:123-124 | the constants 3060 and 306/10 name the month of every day of a year that starts in March |
| Calendar.BreakThenMake | scripts/plugin/date.lua:111-125 | for every integer day number, breaking it gives a valid date and making its number gives it back |
| Calendar.MakeThenBreak | scripts/plugin/date.lua:111-125 | for every valid Gregorian date, making its number and breaking it gives the date back |
| Calendar.CountsDays | scripts/plugin/date.lua:111-116 | the next day of the calendar has the next day number |
| Calendar.DayZero | scripts/plugin/date.lua:152-152 | day 0 is Monday, January 1 of year 1 |
| Calendar.WeekdayRuns | scripts/plugin/date.lua:152-152 | weekdays run from 0 to 6 day by day and come round every seven days; the ISO weekday differs on Sundays only |
| Calendar.MonthCarry | scripts/plugin/date.lua:111-116 | months outside a year carry into the year, and days outside a month are counted on |
| Calendar.WeekOneIsMonday | scripts/plugin/date.lua:163-168 | week one starts on the Monday of the week that holds January 4 |
| Calendar.IsoYearLength | scripts/plugin/date.lua:163-168 | an ISO year has 52 or 53 whole weeks |
| Calendar.IsoRoundTrip | scripts/plugin/date.lua:169-194 | every day lies in the ISO year the lookup gives, in week 1 to 53; both lookups of the year agree; and year, week and weekday give the day number back |
| Calendar.IsoDateRoundTrip | scripts/plugin/date.lua:169-194 | every existing ISO week date comes back from its day number |
| Calendar.DateObject.Normalize | scripts/plugin/date.lua:408-412 | whole days are carried out of the fraction without moving the instant; refused exactly when the day number from before the carry is beyond 365242500 either way |
| Calendar.DateObject.AddDayFrc | scripts/plugin/date.lua:521-531 | adding any amount of units, whole or not, moves the instant by exactly their ticks |
| Calendar.LimitCheckMissesCarry | scripts/plugin/date.lua:408-412 | for every day number and every number of ticks: an accepted date ends up outside the limits exactly when the ticks lead past the last day or before the first, and a refused one would have ended up inside exactly when they lead back |
| Calendar.MissedCarries | scripts/plugin/date.lua:408-412 | one input for each of the four ways in which the check goes wrong |
| DelayQueue.RootIsLeast | engine/engine/timerWheel/delay_queue.go:19-26 | the first element of the heap has the least priority |
| DelayQueue.PriorityQueue.Up | engine/engine/timerWheel/delay_queue.go:81-85 | moving a new element up restores the heap and keeps the items |
| DelayQueue.PriorityQueue.Down | engine/engine/timerWheel/delay_queue.go:56-69 | moving an element down restores the heap and keeps the items |
| DelayQueue.PriorityQueue.Push | engine/engine/timerWheel/delay_queue.go:28-40 | the item is added and the heap kept |
| DelayQueue.PriorityQueue.RemoveFirst | engine/engine/timerWheel/delay_queue.go:56-69 | an item of least priority is taken out and the heap kept |
| DelayQueue.PriorityQueue.PeekAndShift | engine/engine/timerWheel/delay_queue.go:56-69 | the least item if its priority has been reached; otherwise no item's has |
| TimerWheel.NewBucketOk | engine/engine/timerWheel/timer_wheel.go:57-59 | a new bucket keeps every slot's bucket unique and aligned |
| TimerWheel.PutTimerOk | engine/engine/timerWheel/bucket.go:88-92 | adding a timer to the bucket that covers its time keeps the invariant, a stale entry of a repeating timer included |
| TimerWheel.EnqueueOk | engine/engine/timerWheel/delay_queue.go:81-85 | a bucket is in the queue exactly once if its flag is set |
| TimerWheel.DequeueOk | engine/engine/timerWheel/delay_queue.go:56-69 | and not at all after it was shifted out |
| TimerWheel.StopTimerOk | engine/engine/timerWheel/bucket.go:51-78 | stopping takes out the timer's own list element and no other |
| TimerWheel.InsertWheelOk | engine/engine/timerWheel/timer_wheel.go:67-85 | a wheel inserted anywhere keeps the starts rising, whole intervals apart and not overlapping |
| TimerWheel.ArmedStays | engine/engine/timerWheel/timer_wheel.go:117-128 | whatever a callback does, every armed timer stays in a bucket that is queued or about to be processed |
| Timers.TruncateLands | engine/engine/timerWheel/utils.go:28-35 | a wheel made for a time starts whole intervals later and covers it |
| TimerWheel.TimeToPrecisionIs | engine/engine/timerWheel/utils.go:24-26 | rounding takes off what is over a whole number of ticks |
| Timers.TimerManager.Place | engine/engine/timerWheel/timer_wheel.go:51-88 | the recursion along the chain ends, with the timer in a queued bucket that covers its clamped time and nothing else changed |
| Timers.FlatSlots | engine/engine/timerWheel/timer_wheel.go:51-88 | the chain of wheels is one flat slot map: an armed timer is in the bucket of its flat slot, and two timers share a bucket exactly when they share the slot |
| Timers.BucketsApart | engine/engine/timerWheel/timer_wheel.go:51-88 | no two buckets of any wheels stand for the same slot |
| Timers.TimerManager.AddTimer | engine/engine/timer.go:58-70 | the new timer is armed, due at the clock plus its duration or at the start of the first wheel, whichever is later, and registered; all others are left alone |
| Timers.TimerManager.Cancel | engine/engine/timer.go:72-80 | a registered timer is made idle and forgotten; an unknown id changes nothing |
| Timers.TimerManager.Run | engine/engine/timerWheel/timer_wheel.go:95-95 | the run is noted with its time, when it had been due, the bucket that listed the timer and the bucket it was in |
| Timers.TimerManager.RearmOrStop | engine/engine/timerWheel/timer_wheel.go:96-103 | a repeating timer that was not cancelled is armed again, due its repeat duration in milliseconds after it had been due, or at the start of the current wheel, whichever is later; any other is idle |
| Timers.TimerManager.GetExpiredAndShift | engine/engine/timerWheel/delay_queue.go:87-93 | all buckets that start by now leave the queue, and only buckets whose rounded time has come |
| Ticks.QuotientFalls | engine/engine/timerWheel/timer_wheel.go:142-158 | (now - start) / interval strictly falls with every switch of the wheel |
| TimerWheel.ListedIsOwn | engine/engine/timerWheel/timer_wheel.go:117-128 | a one-shot timer is listed by the bucket it is in only; what that bucket lists comes up only when now > expiration - 2 * tick |
| Ticks.AfterEntry | engine/engine/timerWheel/timer_wheel.go:117-128 | processing one entry, with any callback, keeps the promise to all timers whose turn is still to come |
| Ticks.History | engine/engine/timerWheel/timer_wheel.go:90-104 | a one-shot timer runs at most once; of two runs of a timer the later was due at least its repeat duration after the earlier; whatever runs two ticks or more ahead of time is a repeating timer listed by a bucket it has left; and no timer runs after the moment it was cancelled, be it within its own or a neighbour's callback |
| Ticks.EarlyOnlyIfStale | engine/engine/timerWheel/timer_wheel.go:90-128 | whatever happens, a timer's next run comes two ticks or more ahead of its time only if a bucket it is not in lists it and that bucket's rounded start is that early |
| Ticks.RefillDue | engine/engine/timerWheel/timer_wheel.go:51-64 | and a timer started at the start of such a bucket brings it up again |
| Ticks.EarlyRun | engine/engine/timerWheel/timer_wheel.go:90-104 | a timer of 5 ms added at 0 runs at 0 and is then listed by such a bucket |
| Callbacks.KeyInjective | engine/game/callback.go:68-71 | keys from different counter values differ |
| Callbacks.DecimalIs | engine/game/callback.go:68-71 | the numbers in a key are in decimal notation |
| Callbacks.KeyLooks | engine/game/callback.go:68-71 | server 12, process 3 and counter 405 give 12_3_405 |
| Callbacks.OrphanMatch | engine/game/callback.go:38-49 | cancelling any timer by its id leaves every pending request with its own armed timer, except the one whose timer it was |
| Callbacks.Placed | engine/game/callback.go:38-66 | every request ever sent is pending and was never processed, or was processed exactly once |
| Servers.Server.NextUniqueID | engine/game/callback.go:68-71 | the key is the server id, the process tag and the risen counter, joined by underscores, and was never used before |
| Servers.Server.SetCallbackWithTimeout | engine/game/callback.go:38-42 | the request is pending with a one-shot timer of its own, due when the timeout is over or at the start of the first wheel, whichever is later |
| Servers.Server.RemoveCallback | engine/game/callback.go:44-49 | the request is gone and its timer idle |
| Servers.Server.Call | engine/game/callback.go:60-66 | a pending request is taken off, its timer idle, before its callback does anything at all, and is processed once; any other key changes nothing |
| Servers.Server.CancelById | engine/engine/timer.go:72-80 | a timer cancelled by its id is idle; if a request waited for it, the request is marked as left behind |
| Servers.Server.RunScript | engine/engine/timer.go:58-80 | each action of a callback in turn does what it says: timers started and cancelled, requests sent and answered, answers running further callbacks |
| Servers.Server.RunCallbackOf | engine/game/callback.go:51-58 | a timeout reaches the pending request of its own key, and runs its callback at its turn in the tick |
| Servers.Server.FireTimer | engine/engine/timerWheel/timer_wheel.go:90-104 | the run is noted, the callback does what it does, then the timer is armed one period later or stopped; nothing else of the other timers changes unless the callback asks for it |
| Servers.Server.OnTimeout | engine/engine/timerWheel/timer_wheel.go:90-104 | an idle timer is passed over, be it cancelled by a neighbour a moment before; any other runs |
| Servers.Server.OnTimeOut | engine/engine/timerWheel/timer_wheel.go:117-128 | the nested loops over popped buckets and their entries keep the promise to every timer that was due |
| Servers.SentIsUsed | engine/game/callback.go:38-42 | sending makes exactly one key more the key of a request ever sent, and it is pending |
| Servers.TookTrans | engine/engine/timerWheel/timer_wheel.go:117-158 | ticks are made of steps: buckets leave the queue, wheels change, and armed timers that a bucket which has come up lists run, each with its own callback and all its effects |
| Servers.AfterTick | engine/game/callback.go:51-66 | every request ever sent before the tick whose deadline has come has been processed, or somebody cancelled its timer by its id |
| Servers.Server.HandleMainTick | engine/engine/timerWheel/timer_wheel.go:142-158 | the wheel-switching loop ends; every armed timer whose time had come, or that a bucket which had come up listed, ran in this tick unless it was cancelled in it; every request sent before whose deadline has come is processed or its timer was cancelled by id; what changed is the work of the callbacks that ran, step by step; no timer is lost, those started in the tick included: whatever is idle was cancelled or is a one-shot timer that ran; afterwards no started wheel follows the current one |
| Servers.SendInTick | engine/engine/timerWheel/timer_wheel.go:117-128 | the steps of a tick whose callback sends a request with timeout 0: its timer's bucket is queued after the tick has emptied the queue, so the request is overdue and pending when the tick ends |
| Servers.Server.Drive | engine/game/callback.go:38-71 | over every run of scripts and ticks, whatever callbacks start, cancel, send and answer: the end is what the operations do one after the other; a timer cancelled at any moment never runs after it; one-shot timers run at most once and not early; two runs of a timer were due at least its repeat duration apart; a timer that existed at the start next runs early only if a stale bucket listed it; no timer is lost; every request ever sent, before or in the run, is pending or was processed, exactly once; and a pending request has its timer armed at its deadline unless somebody cancelled that very id |
| Servers.Server.MakeEarly | engine/engine/timerWheel/timer_wheel.go:51-128 | from every state between operations in which a stale bucket comes up two ticks or more ahead of a timer's time, a timer started at that bucket's start and a tick make the timer's next run that early |
| Servers.ReachStale | engine/engine/timerWheel/timer_wheel.go:51-128 | the methods of a server, step by step, lead to such a state |
| BufferedTasks.TaskBuffer.PushBack | engine/dbmanager/buffered_tasks.go:29-35 | the task goes to the end of its entity's list; others are untouched |
| BufferedTasks.TaskBuffer.AddTask | engine/dbmanager/buffered_tasks.go:29-38 | what is outstanding afterwards concerns the front task, not the new one |
| BufferedTasks.TaskBuffer.PopTask | engine/dbmanager/buffered_tasks.go:40-50 | the front task, if any, leaves |
| BufferedTasks.TaskBuffer.GetTask | engine/dbmanager/buffered_tasks.go:77-89 | the front task, if any |
| BufferedTasks.TaskBuffer.ProcessTask | engine/dbmanager/buffered_tasks.go:52-66 | the front task is in the pool, or a retry timer is pending |
| BufferedTasks.TaskBuffer.FinishProcessTask | engine/dbmanager/buffered_tasks.go:72-75 | the front task leaves and the next one is taken up |
| BufferedTasks.TaskBuffer.TaskSize | engine/dbmanager/buffered_tasks.go:91-99 | the sum of the lengths of all lists |
| BufferedTasks.Fifo | engine/dbmanager/buffered_tasks.go:29-75 | in every interleaving tasks leave in arrival order and once each, and outstanding work is never less than the list |
| BufferedTasks.Independent | engine/dbmanager/buffered_tasks.go:29-75 | what all threads do to one entity is a run of that entity alone |
| BufferedTasks.NothingOutstanding | engine/dbmanager/signal.go:38-47 | with nothing outstanding the task size is 0, so the shutdown loop ends |
| BufferedTasks.OneAtATime | engine/dbmanager/buffered_tasks.go:29-75 | when every push meets an entity with nothing outstanding, tasks run one at a time, each exactly once, in arrival order |
| BufferedTasks.OverlapIffBusy | engine/dbmanager/buffered_tasks.go:29-66 | after a push two executions at once are possible exactly when something was outstanding |
| BufferedTasks.EmptyListIsNotEnough | engine/dbmanager/buffered_tasks.go:72-75 | a run in which every push meets an empty list and two executions overlap |
| Entities.SetClientKeeps | engine/engine/entity.go:428-511 | setting or taking away a client keeps the invariant and touches no other entity; a refusal changes nothing, otherwise the client is the one asked for |
| Entities.SetClientTimers | engine/engine/entity.go:428-511 | every timer that setClient starts or stops: heartbeat, save and destroy timer, for a client gained, replaced and lost |
| Entities.GainedOk | engine/engine/entity.go:483-508 | an entity that gains a client has no pending destroy timer |
| Entities.LostOk | engine/engine/entity.go:479-482 | an entity that loses its client has no heartbeat timer |
| Entities.CancelAllTimersOk | engine/engine/entity.go:109-117 | no save or destroy timer is left; the heartbeat timer is not covered |
| Entities.CancelsListed | engine/engine/entity.go:109-117 | exactly the timers the entity lists are cancelled |
| Entities.FinalKeeps | engine/engine/entity.go:179-185 | finalising a cleared entity keeps the invariant |
| Entities.DestroyKeeps | engine/engine/entity.go:191-248 | after every destroy there is no client and no heartbeat timer; after an immediate one no save or destroy timer either, and the entity is on its way out |
| Entities.DelayedDestroyWaits | engine/engine/entity.go:215-228 | a destroy leaves a ready entity ready exactly when it is not immediate and takes a client from a persistent entity |
| Entities.DestroyOutcome | engine/engine/entity.go:191-248 | every case of a destroy: ignored when the entity is gone or was destroyed less than ten seconds ago; final at once after a failed set-up; put off, with the destroy timer armed; otherwise marked and handed to be saved if that is asked for and the entity is persistent, and final at once if not |
| EntityRuns.CreatedKeeps | engine/engine/entity_manager.go:83-100 | creating an entity keeps the invariant; it is then ready, registered, and without a client or timer, or destroyed if its set-up failed |
| EntityRuns.UpdatedKeeps | engine/engine/entity_manager.go:263-282 | a binding request, refused ones included, keeps every holder listed under its mailbox |
| EntityRuns.HolderListed | engine/engine/entity_manager.go:263-282 | whoever holds a mailbox is registered and listed under it |
| EntityRuns.IndexAfter | engine/engine/entity_manager.go:263-310 | what the index lists under every mailbox after an entity is listed and after a client or a gate is struck from it |
| EntityRuns.ConnRemovedKeeps | engine/engine/entity_manager.go:284-297 | a closed client leaves no entity bound to it, and no other client is lost |
| EntityRuns.GateRemovedKeeps | engine/engine/entity_manager.go:299-310 | a lost gate leaves no entity bound to any client of it; exactly the entities listed under the gate lose their client, be it a client of another gate, and no other entity changes |
| EntityRuns.LostThroughStale | engine/engine/entity_manager.go:263-310 | an entity that moved from a client of one gate to one of another loses the new client when the old gate goes down |
| EntityRuns.TimerFiredKeeps | engine/engine/entity.go:367-375 | a save, destroy, heartbeat or script timer that runs keeps the invariant; a destroy timer leaves the entity on its way out |
| EntityRuns.SilentClient | engine/engine/entity.go:555-565 | the heartbeat timer takes a client that has been silent for too long, and its entity, if persistent, is then to be destroyed later; otherwise it changes nothing |
| EntityRuns.ScriptTimers | engine/engine/entity.go:94-107 | a script's timer is armed and listed with its entity, and neither after the script cancelled it |
| EntityRuns.SaveConfirmedKeeps | engine/engine/entity.go:250-252 | a confirmed save finalises the entity if it still exists |
| EntityRuns.FinalisedIff | engine/engine/entity.go:179-252 | for every event and every entity: whether the event finalises it |
| EntityRuns.SavedBeforeFinal | engine/engine/entity.go:230-252 | from any moment of any run on: a persistent entity whose set-up succeeded, and which nobody destroys without saving, is finalised only after its save was confirmed |
| EntityRuns.RunKeeps | engine/engine/entity.go:179-252 | every run of events keeps the invariant, and statuses never fall |
| EntityRuns.Lifecycle | engine/engine/entity.go:179-252 | at every moment of every run: a client only in state Ready, listed, and without a pending destroy timer; no client and no engine timer from Destroying on; finalisation at most once; statuses never fall |
| EntityManagers.EntityManager.SetEntityClient | engine/engine/entity.go:428-511 | the method changes the state as the function says and returns false exactly for a refusal |
| EntityManagers.EntityManager.CancelAll | engine/engine/entity.go:109-117 | the loop cancels exactly the registered timers |
| EntityManagers.EntityManager.FinalEntity | engine/engine/entity.go:179-185 | unregisters and marks the entity |
| EntityManagers.EntityManager.DestroyOne | engine/engine/entity.go:191-248 | all branches of destroy, repeated calls included, as the function says |
| EntityManagers.EntityManager.CreateEntityWithId | engine/engine/entity_manager.go:83-100 | id 0 is refused; a failing set-up destroys the new entity at once |
| EntityManagers.EntityManager.SavedOnDestroyCallback | engine/engine/entity.go:250-252 | finalises a registered entity only |
| EntityManagers.EntityManager.UpdateEntityConnInfo | engine/engine/entity_manager.go:263-282 | the index is updated before the entity is asked |
| EntityManagers.EntityManager.RemoveEntityConnInfo | engine/engine/entity_manager.go:284-297 | the loop, in any order, leaves no holder of the mailbox |
| EntityManagers.EntityManager.RemoveGateLink | engine/engine/entity_manager.go:299-310 | the nested loops, in any order, leave no holder of any mailbox of the gate |
| EntityManagers.EntityManager.OnTimer | engine/engine/entity.go:367-375 | the timer callbacks change the state as the function says |
| Bindings.GateProxy.BindEntity | engine/gate/game_proxy.go:462-471 | the client's entry becomes the entity |
| Bindings.GateProxy.UnBindEntity | engine/gate/game_proxy.go:474-479 | the client's entry is deleted whatever it was |
| Bindings.GateProxy.GetBindEntity | engine/gate/game_proxy.go:454-459 | the bound entity, or 0 |
| Bindings.GateProxy.Process | engine/gate/message.go:134-147 | the table is the fold of all messages delivered so far |
| Bindings.SetClientSends | engine/engine/entity.go:446-497 | exactly which messages setClient sends to each gate, in order: the old client is unbound before the new one is bound |
| Bindings.SetClientMirror | engine/engine/entity.go:428-511 | the gate's table will equal the game's bindings after setClient exactly when no other entity holds the client |
| Bindings.UpdatedMirror | engine/engine/entity_manager.go:263-282 | the same for a binding request from outside, refused ones included |
| Bindings.DestroyMirror | engine/engine/entity.go:191-248 | destroying an entity keeps the mirror |
| Bindings.MirrorRun | engine/engine/entity_manager.go:263-310 | every run without shared clients keeps the mirror at every gate whose link is up |
| Bindings.BindingAgreement | engine/gate/game_proxy.go:462-479 | over every such run, however many messages a gate has received, applying the rest to its table gives exactly the game's bindings |
| IdGenerator.PackIsSum | engine/engine/id_generator.go:68-68 | the shifted and or-ed fields do not overlap |
| IdGenerator.PackInjective | engine/engine/id_generator.go:68-68 | an id tells its time stamp, server, process and sequence number |
| IdGenerator.EntityIdGenerator.Create | engine/engine/id_generator.go:33-46 | refuses exactly the ids out of range |
| IdGenerator.EntityIdGenerator.NextVal | engine/engine/id_generator.go:48-71 | the method with its wait loop is the step function; the loop ends |
| IdGenerator.NextIs | engine/engine/id_generator.go:48-71 | one call, for every state and clock: it fails exactly when the sixteen numbers of its second are used up or the time stamp has more than 38 bits, and otherwise gives the packed sum |
| IdGenerator.IdIs | engine/engine/id_generator.go:48-71 | while bursts stay below 17 calls, an id is 4194304 times the seconds since 2020 plus 4096 times the server number plus 16 times the process number plus the call's place in its second |
| IdGenerator.IncreasingIffPaced | engine/engine/id_generator.go:48-71 | for every non-decreasing clock in range, ids rise strictly exactly when no second sees more than 16 calls |
| IdGenerator.PacedOrder | engine/engine/id_generator.go:48-71 | ids then fit 60 bits |
| IdGenerator.DistinctGenerators | engine/engine/id_generator.go:48-71 | generators with different (id0, id1) share no value but 0, the answer of a failed call, whatever their clocks and however fast they are called |
| IdGenerator.PacedDistinct | engine/engine/id_generator.go:48-71 | and no value at all with at most 16 calls a second |
| IdGenerator.Seventeenth | engine/engine/id_generator.go:54-66 | the 17th call of a second gives 0 |
| IdGenerator.EighteenthRepeats | engine/engine/id_generator.go:54-66 | and the 18th repeats the second id of that second |

## Left out

- Sockets, etcd, redis, mongo, thread pools, logging, configuration and the script engine are inputs, events or parameters.
- Connecting and reconnecting of the TCP client; buffers are per connection. The socket's answers to a write are a parameter.
- RingBuffers.RingBuffer.Write: storage the size of the machine's memory is assumed to be available; the failure modelled is the panic above 2^62. `ByteBuffer`, `WithByteBuffer` and `WriteString` are not modelled.
- TaskQueue.CountTracksLength: the 32-bit counter is unbounded here. Memory reclamation is left to the garbage collector, as in the program.
- Messages.UnmarshalRequest: a message is a value, so what a failed unmarshal has already changed is lost; a position beyond the input is reported as unexpected end where the program may report an invalid length. The other generated message types repeat the pattern.
- Json.RoundTrip: numbers that are not integers below 10^14 in magnitude are outside the values printed, and a table holds no `null`, as in Lua.
- Json.DecodesIffSpelled: a well-formed numeral for another number (a fraction, an exponent, hexadecimal, more than 15 digits) has an answer of its own without a value.
- Json.NumberRefused: `tonumber` is taken as the Lua 5.1 manual has it; how the script engine itself treats leading zeros, `inf`, `nan` and underscores is not part of this model.
- Json.EncodeValue: the checks for circular, sparse and mixed tables are not modelled; a table is given in the order it is walked. Error positions are kept, their line and column text is not.
- Calendar.BreakThenMake: Lua's doubles are integers here; every intermediate value within the module's limits is exact.
- Calendar.DateObject.AddDayFrc: amounts and ticks are real numbers; the rounding of Lua's doubles is not modelled.
- Local time zones, parsing and formatting of dates.
- DelayQueue.PriorityQueue.Push: the slice's capacity and the items' own index field.
- Timers.TimerManager.Place: the clamped time is written to the timer when it is added to its bucket, not before; nothing reads it in between. 64-bit wrap of times and ids is not modelled, nor the error for a tick below one millisecond or a second initialisation.
- Servers.Server.RunScript: what a callback does is a finite list of actions on timers and requests, chosen freely for the n-th callback of a run; it does not start a tick of its own, and what it does to entities is in `EntityRuns`.
- Servers.Server.SetCallbackWithTimeout: keys come from the counter, as in every call of the program.
- EntityRuns.Lifecycle: script callbacks of an entity do nothing to entities while they run, and ids are not reused; etcd and redis registration are an outcome of the set-up. The timer service is the set of armed timers.
- EntityRuns.TimerFiredKeeps: a repeating script timer is no longer listed with its entity after its first run, so it outlives a destroy; nothing is claimed about script timers.
- Bindings.BindingAgreement: one game per gate, and a link that has been up from the start; other messages to the gate are not modelled.
- Bindings.SetClientSends: a message to a gate that is unknown or down goes nowhere here; the program dereferences nil for an unknown gate (engine/game/gate_proxy.go:59-61), and while it unbinds the entities of a gate that went down it still writes to the closed connection.
- IdGenerator.EntityIdGenerator.NextVal: clocks before 2020 are not modelled.
- The typed script codec, whose results depend on the table order of a script engine that is not part of this model; the save queue of entities, the choice of a game by load, script reloading, and all tools, which would only add easy members.
