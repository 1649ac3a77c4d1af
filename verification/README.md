# duktape-cc: verified models of its algorithms and state machines

This project models the parts of the duktape C++ wrapper that hold algorithms of their own, and proves
what they are for. Each file is one component; classes stand for the objects whose fields the C++ code
updates in place, and specification functions say what those updates compute.

* **Hashes** (`Md5`, `Sha1`, `Sha512` over `Bytes`): the three streaming hash classes with their partial
  block buffers, counters and in-place padding, against the loop forms of RFC 1321 and FIPS 180-4. For any
  chunks the object holds exactly what one update of all of them would leave, and the final value is the
  digest of the padded message. Where an integer width makes the code differ from the standard, the exact
  condition is proved: signed `char` words (SHA-1), a 32-bit length field and a 32-bit size (SHA-512).
  Published answers (`Md5Vectors`, `Sha1Vectors`, `Sha512Vectors`) fix what both sides share.
* **Checks** (`CrcTheory`, `Crc16`, `Crc32`, `Crc8`): the table loop as a template over any register, equal
  to the bit-at-a-time reflected division, with burst and odd-error detection, the effect of a difference and
  the residue; both table instances are shown to satisfy the laws of the template. The bit-serial CRC-8 is the
  PEC of its data.
* **Child processes** (`ChildProcess`, `ChildOutput`, `LineCallback`, `Exec`, `CommandLine`): the POSIX step
  function against a kernel that may answer anything, over all runs; the same steps in a world with the child at the
  other end of the pipes; the line splitter behind the output callbacks; the loop that joins them, from what
  the child writes to what the callbacks see; and the Windows command line with the splitting rules of the
  Microsoft C runtime.
* **Files** (`FileLines`, `FileOptions`, `Glob`): reading and writing of lines over single-byte reads and
  partial writes, the normal form of open options, and file name patterns translated to ECMAScript regular
  expressions.
* **Engine** (`Selector`, `IterateObject`): dot-separated selectors on a graph of shared objects with
  prototypes, and the functional iteration as shuffles of the value stack, over a world in which the called
  function may do anything.
* **Others** (`LinearFit`, `IpAddress`): least squares over the reals, and socket addresses printed and read.

`Common` holds what several components share. Kernel answers, the clock, callback results and the
conversions `inet_pton` and `inet_ntop` are parameters; where a theorem needs more of them than their type
says, it is stated as a hypothesis (`ChildOutput.Honest`, `IpAddress.Inverse`).

Differences between what the code does and what its comments or the standards say are kept as the code has
them. Each is stated as an exact condition, most with a concrete input beside it: `Md5.WrapsExactly`,
`Md5.NarrowExact`, `Sha1.SignedWordExact`, `Sha1.MessageDecodingExact`, `Sha512.PaddingExact`,
`Sha512.TakenExact`, `Sha512.CounterExact`, `Crc8.TruncationExact`, `LineCallback.FedExact`,
`ChildOutput.NoOutputLost`, `CommandLine.ProgramExact`, `CommandLine.RawArguments`,
`FileLines.LinesRoundTrip`, `FileLines.NothingLost`, `FileOptions.FlagsExactly` (appending without `w` does
not write), `Glob.AgreesExactly`, `Selector.PathOfName`, `Selector.DefinedIsSelected`,
`Selector.PlainRoundTrip`, `Selector.UndefExact`, and `IpAddress.PlainV4` (a trailing colon is accepted
although line 331 means to refuse it).

`dafny verify dfyconfig.toml` checks the whole project.

## Model

| member | source | states |
|---|---|---|
| Bytes.ToByteValue | duktape/mod/mod.sys.hash.hh:353 | the byte is the number modulo 256 |
| Bytes.LeValue | duktape/mod/mod.sys.hash.hh:353 | the k bytes, read as digits in base 256 with the least significant first, are the number modulo 256^k |
| Bytes.BeValue | duktape/mod/mod.sys.hash.hh:878 | the same for the most significant first |
| Md5.Hasher.AddBits | duktape/mod/mod.sys.hash.hh:321-325 | for every 32-bit size the two 32-bit counters with their hand-made carry hold eight times the number of bytes fed, modulo 2^64 |
| Md5.CountsStep | duktape/mod/mod.sys.hash.hh:323-325 | adding the low and high parts of a chunk's bit count with the comparison as carry is addition modulo 2^64, for every size below 2^32 |
| Md5.WrapsExactly | duktape/mod/mod.sys.hash.hh:326-331 | when a chunk completes a block, some 32-bit loop index in it wraps if and only if the chunk does not fit, that is, its size without the last part block is within 64 bytes of 2^32 |
| Md5.Hasher.Update | duktape/mod/mod.sys.hash.hh:320-333 | unless the loop index wraps, which is exactly when the chunk does not fit, the chaining value folds all full blocks of everything fed so far and the buffer holds exactly the rest; the fed bytes grow by the chunk |
| Md5.ChunksLeaveNoTrace | duktape/mod/mod.sys.hash.hh:320-333 | two objects fed the same bytes in any chunks have the same chaining value, counters and buffered rest |
| Md5.Hasher.Transform | duktape/mod/mod.sys.hash.hh:425-489 | the 64 unrolled macro calls compute the compression function of section 3.4 of RFC 1321 |
| Md5.Round1 | duktape/mod/mod.sys.hash.hh:446-453 | sixteen calls with renamed registers are steps 0 to 15 of the table-driven loop |
| Md5.Round2 | duktape/mod/mod.sys.hash.hh:454-461 | the same for steps 16 to 31 |
| Md5.Round3 | duktape/mod/mod.sys.hash.hh:462-469 | the same for steps 32 to 47 |
| Md5.Round4 | duktape/mod/mod.sys.hash.hh:470-477 | the same for steps 48 to 63 |
| Md5.WordsValue | duktape/mod/mod.sys.hash.hh:437-442 | each message word is the number that its four bytes are, least significant first, for every block |
| Md5Vectors.AbcDigest | duktape/mod/mod.sys.hash.hh:425-489 | the digest of "abc" is the one that section A.5 of RFC 1321 gives, which fixes the auxiliary functions, rotations, sine constants and initial words |
| Md5.OutputInjective | duktape/mod/mod.sys.hash.hh:353-358 | different chaining values never print as the same 16 bytes |
| Md5.Hasher.Final | duktape/mod/mod.sys.hash.hh:339-367 | the two updates with padding and length give the MD5 digest (sections 3.1 to 3.5 of RFC 1321) of everything fed, and the object is as new |
| Md5.Hasher.Clear | duktape/mod/mod.sys.hash.hh:308-313 | the object is in the state of having been fed nothing |
| Md5.Calculate | duktape/mod/mod.sys.hash.hh:376-385 | the digest of the first size modulo 2^32 bytes, of all of them below 2^32 - 64; the index wraps exactly when the narrowed size is in the last 64 numbers |
| Md5.NarrowExact | duktape/mod/mod.sys.hash.hh:384-385 | the narrowed size leaves the data whole if and only if it is below 2^32 |
| Md5.CalculateChunks | duktape/mod/mod.sys.hash.hh:320-367 | any list of chunks has the digest of all of them in one exactly as far as every chunk fits, which all chunks up to 2^32 - 128 bytes do |
| Md5.CalculateStream | duktape/mod/mod.sys.hash.hh:392-402 | reading in pieces gives the digest of the whole stream |
| Sha1.Blk | duktape/mod/mod.sys.hash.hh:705 | one step of the circular 16-word window yields word i of the 80-word schedule and keeps the window |
| Sha1.R1 | duktape/mod/mod.sys.hash.hh:707 | a macro call that updates two registers in place is one round of section 6.1.2 of FIPS 180-4 after the renaming of all five |
| Sha1.Rounds0 | duktape/mod/mod.sys.hash.hh:712-715 | the first twenty calls, of which four already overwrite the window, are rounds 0 to 19 |
| Sha1.Rounds20 | duktape/mod/mod.sys.hash.hh:716-719 | rounds 20 to 39 |
| Sha1.Rounds40 | duktape/mod/mod.sys.hash.hh:720-723 | rounds 40 to 59, with the rewritten majority function |
| Sha1.Rounds60 | duktape/mod/mod.sys.hash.hh:724-727 | rounds 60 to 79 |
| Sha1.WordsValue | duktape/mod/mod.sys.hash.hh:587-599 | each message word of the standard is the number that its four bytes are, most significant first, for every block |
| Sha1.ToWordValue | duktape/mod/mod.sys.hash.hh:635-636 | the length words are the number modulo 2^32 |
| Sha1Vectors.AbcDigest | duktape/mod/mod.sys.hash.hh:702-736 | the value of "abc" is that of the examples for FIPS 180-4, which fixes the functions, rotations, constants and initial words |
| Sha1.Hasher.Transform | duktape/mod/mod.sys.hash.hh:702-736 | the in-place transformation is the compression function of section 6.1.2 of FIPS 180-4, for every state and block |
| Sha1.SignedWordExact | duktape/mod/mod.sys.hash.hh:587-599 | a word put together from sign-extended characters is the big-endian word if and only if every byte behind the first that has its top bit set follows nothing but 0xff |
| Sha1.MessageDecodingExact | duktape/mod/mod.sys.hash.hh:587-599 | signed characters decode all full blocks of a message as the standard does if and only if every word of them is clean |
| Sha1.HighByteMisread | duktape/mod/mod.sys.hash.hh:587-599 | one block that signed characters decode differently |
| Sha1.Hasher.Update | duktape/mod/mod.sys.hash.hh:574-609 | the chaining value, block count and buffer are those of everything fed so far, for either kind of character |
| Sha1.ChunksLeaveNoTrace | duktape/mod/mod.sys.hash.hh:574-609 | two objects fed the same bytes in any chunks have the same state |
| Sha1.OneBlock | duktape/mod/mod.sys.hash.hh:617-638 | below 56 buffered bytes the single last block with the length words completes the padded message |
| Sha1.TwoBlocks | duktape/mod/mod.sys.hash.hh:617-638 | from 56 buffered bytes on, the two last blocks do |
| Sha1.Hasher.Final | duktape/mod/mod.sys.hash.hh:615-644 | the value is that of the message padded as in section 5.1.1 of FIPS 180-4, and the object is as new |
| Sha1.CodeIsSha1 | duktape/mod/mod.sys.hash.hh:574-644 | with unsigned characters for every message, with signed ones for every clean message, the value is SHA-1 |
| Sha1.Calculate | duktape/mod/mod.sys.hash.hh:653-662 | the value for one buffer |
| Sha1.CalculateChunks | duktape/mod/mod.sys.hash.hh:574-644 | any list of chunks has the value of all of them in one |
| Sha1.CalculateStream | duktape/mod/mod.sys.hash.hh:669-679 | reading in pieces gives the value for the whole stream |
| Sha512.LutIsCubeRoots | duktape/mod/mod.sys.hash.hh:1001-1022 | every table constant is the first 64 fractional bits of the cube root of its prime (section 4.2.3 of FIPS 180-4) |
| Sha512.InitialIsSquareRoots | duktape/mod/mod.sys.hash.hh:827-830 | every initial word is the first 64 fractional bits of the square root of its prime (section 5.3.5 of FIPS 180-4) |
| Sha512.WordsValue | duktape/mod/mod.sys.hash.hh:961-970 | each message word is the number that its eight bytes are, most significant first, for every block |
| Sha512.Hasher.Schedule | duktape/mod/mod.sys.hash.hh:961-971 | the 80 words are the message schedule of section 6.4.2 of FIPS 180-4 |
| Sha512.Hasher.RoundInPlace | duktape/mod/mod.sys.hash.hh:973-977 | the rotation of the working array is one round |
| Sha512.Hasher.Transform | duktape/mod/mod.sys.hash.hh:945-990 | a number of blocks is folded into the chaining value |
| Sha512Vectors.AbcDigest | duktape/mod/mod.sys.hash.hh:945-990 | the value of "abc" is that of the examples for FIPS 180-4, which fixes the four sigma functions, Ch and Maj |
| Sha512.Hasher.Update | duktape/mod/mod.sys.hash.hh:839-856 | chaining value and buffer are those of all bytes taken so far; from a chunk the code takes what the 32-bit remainder leaves |
| Sha512.TakenExact | duktape/mod/mod.sys.hash.hh:841-850 | a chunk is taken as a whole if and only if its size is below 2^32 plus the free part of the block |
| Sha512.TakenIs | duktape/mod/mod.sys.hash.hh:841-850 | for every size: the bytes taken are those that complete the block and as many behind them as the remainder is modulo 2^32 |
| Sha512.ChunksLeaveNoTrace | duktape/mod/mod.sys.hash.hh:839-856 | two objects that took the same bytes in any chunks have the same chaining value and buffered rest, and the same byte counter if and only if their updates lost the same number of 2^32 wraps, modulo 2^32 |
| Sha512.CounterExact | duktape/mod/mod.sys.hash.hh:839-856 | the byte counter is the number of hashed bytes, modulo 2^64, if and only if the number of updates whose block count wraps is a multiple of 2^32 |
| Sha512.PaddingExact | duktape/mod/mod.sys.hash.hh:862-878 | the padding, with only the low 32 bits of the length, is that of section 5.1.2 of FIPS 180-4 if and only if the message is shorter than 2^29 bytes |
| Sha512.LongMessageMispadded | duktape/mod/mod.sys.hash.hh:862-878 | a message of 2^29 zero bytes whose padding is not that of the standard |
| Sha512.Hasher.Final | duktape/mod/mod.sys.hash.hh:862-885 | the value for everything taken, SHA-512 below 2^29 bytes, and the object is as new |
| Sha512.Calculate | duktape/mod/mod.sys.hash.hh:894-907 | SHA-512 of a buffer below 2^29 bytes, and the code's own padding up to 2^32 |
| Sha512.CalculateChunks | duktape/mod/mod.sys.hash.hh:839-885 | any list of chunks below 2^32 bytes each has the value of all of them in one |
| Sha512.CalculateStream | duktape/mod/mod.sys.hash.hh:914-922 | reading in pieces gives the value for the whole stream |
| CrcTheory.TableStep | duktape/mod/mod.sys.hash.hh:206 | one table look-up is eight steps of the bit-at-a-time division, for every register that obeys the laws |
| CrcTheory.Calculate | duktape/mod/mod.sys.hash.hh:199-210 | the table loop is the bit-at-a-time division of the whole message |
| CrcTheory.CrcOfDifference | duktape/mod/mod.sys.hash.hh:199-210 | the difference of two checksums depends on the difference of the messages only |
| CrcTheory.MessageBurstDetected | duktape/mod/mod.sys.hash.hh:199-210 | messages that differ only within as many consecutive bits as the register has never have the same checksum |
| CrcTheory.OddDifferenceDetected | duktape/mod/mod.sys.hash.hh:199-210 | with a register parity that a division step keeps, messages that differ in an odd number of bits, wherever they are, never have the same checksum |
| CrcTheory.ResidueExact | duktape/mod/mod.sys.hash.hh:199-210 | a message followed by register-many bytes has the one fixed residue if and only if those bytes are its checksum |
| Crc16.TabIsEight | duktape/mod/mod.sys.hash.hh:108-131 | each of the 256 entries is eight division steps of its index |
| Crc16.ShiftIs | duktape/mod/mod.sys.hash.hh:108-131 | one such step shifts down and, if the bit shifted out was set, adds the polynomial 0xA001 (section 8 of RFC 1952) |
| Crc16.Laws | duktape/mod/mod.sys.hash.hh:108-131 | the 16-bit register with this table obeys the laws of the template |
| Crc16.Calculate | duktape/mod/mod.sys.hash.hh:199-215 | the code's value is the bit-at-a-time CRC of every message |
| Crc16.ChecksumBytewise | duktape/mod/mod.sys.hash.hh:199-215 | and that is the division done byte by byte on bit vectors |
| Crc16.BurstDetected | duktape/mod/mod.sys.hash.hh:199-215 | differences within any 16 consecutive bits are always seen |
| Crc16.DamagedBytesDetected | duktape/mod/mod.sys.hash.hh:199-215 | damage within two consecutive bytes is always seen |
| Crc16.OddDifferenceDetected | duktape/mod/mod.sys.hash.hh:199-215 | any odd number of differing bits is always seen |
| Crc16.ResidueExact | duktape/mod/mod.sys.hash.hh:199-215 | message and two bytes give 0x4ffe if and only if the bytes are the little-endian checksum |
| Crc16.CheckValue | duktape/mod/mod.sys.hash.hh:199-215 | the text 123456789 has the catalogued check value 0xb4c8 |
| Crc32.TabIsEight | duktape/mod/mod.sys.hash.hh:134-167 | each of the 256 entries is eight division steps of its index |
| Crc32.ShiftIs | duktape/mod/mod.sys.hash.hh:134-167 | one such step shifts down and, if the bit shifted out was set, adds the polynomial 0xEDB88320 (section 8 of RFC 1952) |
| Crc32.Laws | duktape/mod/mod.sys.hash.hh:134-167 | the 32-bit register with this table obeys the laws of the template |
| Crc32.Calculate | duktape/mod/mod.sys.hash.hh:199-215 | the code's value is the bit-at-a-time CRC of every message (section 8 of RFC 1952) |
| Crc32.ChecksumBytewise | duktape/mod/mod.sys.hash.hh:199-215 | and that is the division done byte by byte on bit vectors |
| Crc32.BurstDetected | duktape/mod/mod.sys.hash.hh:199-215 | differences within any 32 consecutive bits are always seen |
| Crc32.DamagedBytesDetected | duktape/mod/mod.sys.hash.hh:199-215 | damage within four consecutive bytes is always seen |
| Crc32.OddDifferenceMissed | duktape/mod/mod.sys.hash.hh:199-215 | the same is false of the 32-bit polynomial: two messages that differ in an odd number of bits and share their checksum |
| Crc32.ResidueExact | duktape/mod/mod.sys.hash.hh:199-215 | message and four bytes give 0x2144df1c if and only if the bytes are the little-endian checksum |
| Crc32.CheckValue | duktape/mod/mod.sys.hash.hh:199-215 | the text 123456789 has the catalogued check value 0xcbf43926 |
| Crc8.Crc8 | duktape/mod/mod.sys.hash.hh:234-247 | the 16-bit loop is the 8-bit PEC with polynomial x^8 + x^2 + x + 1 |
| Crc8.CheckValue | duktape/mod/mod.sys.hash.hh:234-247 | the text 123456789 has the catalogued check value 0xf4 |
| Crc8.Wrapper | duktape/mod/mod.sys.hash.hh:1037-1051 | the script function checks only the first (size modulo 256) bytes |
| Crc8.TruncationExact | duktape/mod/mod.sys.hash.hh:1037-1051 | for every size: the script function checks all data of that size if and only if the size is below 256 |
| Crc8.LongDataTruncated | duktape/mod/mod.sys.hash.hh:1037-1051 | an instance: 256 bytes whose checksum is not that of the data |
| LinearFit.LinearFit | duktape/mod/mod.xlang.hh:160-184 | sizes that differ and empty data are refused; the line is undefined exactly when all x are equal, and else it has the least squared error of all lines, and alone has it |
| LinearFit.CrossSum | duktape/mod/mod.xlang.hh:175-177 | the running sum is the sum of products |
| LinearFit.DenominatorExact | duktape/mod/mod.xlang.hh:170-180 | the denominator is never negative, and zero exactly when all x are equal |
| LinearFit.NormalEquations | duktape/mod/mod.xlang.hh:179-181 | the two quotients solve the normal equations |
| LinearFit.BestLine | duktape/mod/mod.xlang.hh:160-184 | a solution of the normal equations is the one best line |
| CommandLine.Escape | duktape/mod/mod.sys.exec.hh:246-264 | the loop over backslash runs writes the quoted form whose reading is proved below |
| CommandLine.EscapedExactly | duktape/mod/mod.sys.exec.hh:246-264 | an argument is quoted if and only if it is empty or has a blank, tab, line feed, vertical tab or quote in it, otherwise it stays as it is; every quote within is escaped |
| CommandLine.BackslashesExactly | duktape/mod/mod.sys.exec.hh:249-262 | n backslashes become 2n + 1 before a quote, 2n at the end, and stay n before anything else, wherever they stand |
| CommandLine.BuildCommandLine | duktape/mod/mod.sys.exec.hh:544-556 | program with slashes turned, then each argument behind one space, quoted or raw |
| CommandLine.TurnedExactly | duktape/mod/mod.sys.exec.hh:545 | slashes of the program become backslashes and nothing else changes |
| CommandLine.JoinedMore | duktape/mod/mod.sys.exec.hh:549-556 | each argument stands behind one blank |
| CommandLine.OneArgument | duktape/mod/mod.sys.exec.hh:246-264 | the C runtime reads a quoted argument, whatever follows it, as that argument |
| CommandLine.ArgumentsRoundTrip | duktape/mod/mod.sys.exec.hh:549-556 | splitting the joined arguments gives exactly the list, with empty arguments and trailing backslashes |
| CommandLine.RawArguments | duktape/mod/mod.sys.exec.hh:551-552 | without escaping the list comes back if and only if no argument is empty or has a blank, a tab or a quote in it |
| CommandLine.ProgramExact | duktape/mod/mod.sys.exec.hh:545-548 | the runtime, which reads the program name by other rules, finds it again if and only if a name in need of quotes has no quote and no backslash at its end |
| CommandLine.TrailingBackslashDoubled | duktape/mod/mod.sys.exec.hh:545-548 | a program name that does not come back |
| CommandLine.LineRoundTrip | duktape/mod/mod.sys.exec.hh:544-556 | the whole line splits into program and arguments if and only if the program name is safe |
| ChildProcess.Process.Update | duktape/mod/mod.sys.exec.hh:364-462 | one step changes the object and the calls made exactly as the step function of the runs below |
| ChildProcess.Process.CloseHandles | duktape/mod/mod.sys.exec.hh:493-510 | all pipes closed, then the termination signals |
| ChildProcess.Process.Kill | duktape/mod/mod.sys.exec.hh:464-476 | signals, closing, one more step and exit code -1 |
| ChildProcess.Perform | duktape/mod/mod.sys.exec.hh:1142-1163 | any sequence of updates, kills and hand-overs of output on one object is a run in the sense of the theorems below |
| ChildProcess.StepBook | duktape/mod/mod.sys.exec.hh:364-462 | what one step does to the totals of bytes, descriptors and signals, and when it reaps and ends |
| ChildProcess.InputConserved | duktape/mod/mod.sys.exec.hh:381-406 | over every run the bytes accepted, then those lost, then those waiting are the supplied bytes, and nothing waits behind a loss |
| ChildProcess.LostExactly | duktape/mod/mod.sys.exec.hh:390-402 | input is lost if and only if some write of waiting input fails for good or takes nothing |
| ChildProcess.ClosedAtMostOnce | duktape/mod/mod.sys.exec.hh:480-497 | over every run, kills included, no descriptor is closed twice, none that is still open, and none that is not the object's |
| ChildProcess.KillAfterWarning | duktape/mod/mod.sys.exec.hh:367-380 | a forced kill by timeout comes only after exactly one SIGINT and SIGQUIT of an earlier step and more than 2500 ms after the timeout, and no step signals a reaped child |
| ChildProcess.NeverRunsAgain | duktape/mod/mod.sys.exec.hh:439-461 | once reaped, the child is never signalled again, its exit code stays, and a process that ended never runs again |
| ChildProcess.ExitReported | duktape/mod/mod.sys.exec.hh:195-196 | the exit code that callers ever see is the reported one, or -1 after a timeout |
| ChildProcess.ExitCodeKept | duktape/mod/mod.sys.exec.hh:453-459 | a child that exits with a code below 256 and within its time has that code from then on, whatever the low byte of the status is |
| ChildProcess.NoCodeKept | duktape/mod/mod.sys.exec.hh:442-459 | a child of which the system knows nothing has 0, and one whose time was over has -1 |
| ChildProcess.NotReaped | duktape/mod/mod.sys.exec.hh:442-459 | no other answer of the system reaps the child |
| ChildProcess.TimeoutCallsExactly | duktape/mod/mod.sys.exec.hh:367-380 | exactly when and which signals the timeout sends |
| ChildProcess.InputMovesExactly | duktape/mod/mod.sys.exec.hh:381-402 | what one step leaves of the waiting input, for every answer of the system |
| ChildProcess.InputClosedExactly | duktape/mod/mod.sys.exec.hh:385-405 | a step closes standard input if and only if nothing is left to write and it is not kept open |
| ChildProcess.OutputReadExactly | duktape/mod/mod.sys.exec.hh:407-437 | an output is read if and only if it is ready, poll failed or the process has ended, and closed if and only if that reading ends or fails |
| ChildProcess.KillCallsExactly | duktape/mod/mod.sys.exec.hh:464-510 | all calls that killing a running child makes, in order; no input or output moves |
| ChildProcess.NothingToKill | duktape/mod/mod.sys.exec.hh:464-510 | without a child nothing is signalled, and killing a reaped child does nothing |
| ChildOutput.NextIsStep | duktape/mod/mod.sys.exec.hh:364-462 | the process in the world with a child takes exactly the steps of the object |
| ChildOutput.RunKeeps | duktape/mod/mod.sys.exec.hh:407-437 | over every honest run the bytes handed on, buffered and still in the pipe are those the child wrote, and a pipe is closed only when it is exhausted and the child dead |
| ChildOutput.NoOutputLost | duktape/mod/mod.sys.exec.hh:407-462 | when a process stops running, it has received every byte the child ever wrote to a pipe if and only if the last reading of that pipe was not cut short by a signal, with bytes still behind what it delivered |
| ChildOutput.InterruptedReadLosesOutput | duktape/mod/mod.sys.exec.hh:407-462 | an instance: a run in which such an interruption loses a byte |
| LineCallback.Reader.Call | duktape/mod/mod.sys.exec.hh:918-936 | the callback gets the line without CR and LF at its end, and its answer decides what is added |
| LineCallback.AnswersExactly | duktape/mod/mod.sys.exec.hh:924-936 | callbacks that always keep, drop or replace add up to all stripped lines, nothing, or as many texts |
| LineCallback.Reader.ReadCallback | duktape/mod/mod.sys.exec.hh:896-938 | new data or a flush: which lines are passed on and what stays |
| LineCallback.PiecesExact | duktape/mod/mod.sys.exec.hh:903-917 | one buffer is cut into its lines and its rest if and only if no empty line has text behind it; otherwise text is dropped |
| LineCallback.LinesExactly | duktape/mod/mod.sys.exec.hh:903-917 | every text is its lines, each with its only line feed at the end, and a rest without one |
| LineCallback.AllLinesExactly | duktape/mod/mod.sys.exec.hh:896-938 | with the rest as the last one, the lines are together the text, and none is without any character |
| LineCallback.NoEmptyLinesExactly | duktape/mod/mod.sys.exec.hh:912-914 | a text has no empty lines if and only if no line is a line feed only |
| LineCallback.EmptyLineDrops | duktape/mod/mod.sys.exec.hh:903-917 | whatever lines precede it, an empty line takes all text behind it in the buffer with it |
| LineCallback.FedExact | duktape/mod/mod.sys.exec.hh:896-938 | for every chunking, no byte is dropped if and only if every empty line ends its chunk, and then the pieces are the lines of the whole stream |
| LineCallback.NoEmptyLinesHarmless | duktape/mod/mod.sys.exec.hh:903-917 | a stream without empty lines loses nothing, however it is cut |
| LineCallback.TextDropped | duktape/mod/mod.sys.exec.hh:912-914 | an empty line that takes the following text with it |
| LineCallback.DeliverAll | duktape/mod/mod.sys.exec.hh:1141-1167 | all chunks and the final flush: the callback sees the stripped lines of the stream in order, and the output is what its answers add up to |
| Exec.OutputHandedOver | duktape/mod/mod.sys.exec.hh:1141-1163 | over every honest run of the loop the chunks handed over are together what the child wrote if and only if the last reading was not cut short |
| Exec.Execute | duktape/mod/mod.sys.exec.hh:1136-1167 | the whole loop on the process object: for either output the collected text is what the child wrote if and only if the last reading was not cut short, and then a callback has seen its lines, stripped and in order, when empty lines end their chunks or there are none |
| FileLines.OnlyAtEnd | duktape/mod/mod.fs.file.hh:832-846 | looking only at the last character and searching from behind finds the first newline text |
| FileLines.File.Readln | duktape/mod/mod.fs.file.hh:809-859 | for every kernel: the text before the first newline in what is delivered, position behind it, end of file noticed only behind the last byte |
| FileLines.NothingSkipped | duktape/mod/mod.fs.file.hh:809-859 | for every kernel: the text returned and what ended it are all that was taken; an error if and only if reading fails before a newline; end of file only behind the last byte |
| FileLines.DefaultLine | duktape/mod/mod.fs.file.hh:837-841 | by default a line ends before its LF and before one CR there, and keeps any other CR |
| FileLines.File.Write | duktape/mod/mod.fs.file.hh:122-150 | for every finite list of kernel answers, writes of no byte included: exactly the accepted prefix is in the file, and the rest is handed back |
| FileLines.OverlayExactly | duktape/mod/mod.fs.file.hh:122-150 | written bytes replace those at their position and no others |
| FileLines.AcceptedExactly | duktape/mod/mod.fs.file.hh:122-150 | writing goes on until all is accepted or the first answer that is an interruption or an error |
| FileLines.File.Writeln | duktape/mod/mod.fs.file.hh:876-899 | success means that line and newline are in the file; anything less is an error |
| FileLines.LineBack | duktape/mod/mod.fs.file.hh:809-859 | a written line is read back if and only if the newline text first occurs at its end (by default: no LF in it and no CR at its end) |
| FileLines.NewlineOverlaps | duktape/mod/mod.fs.file.hh:835-846 | a line and a newline text that overlap, so that the line does not come back |
| FileLines.LinesRoundTrip | duktape/mod/mod.fs.file.hh:809-899 | the lines of a written text come back if and only if all of them are such lines |
| FileLines.NothingLost | duktape/mod/mod.fs.file.hh:809-899 | writing the lines read from a file gives the file again, up to a last newline, if and only if a newline text is configured or no CR stands before an LF |
| FileLines.WriteThenRead | duktape/mod/mod.fs.file.hh:809-899 | the same on the object: as many calls of readln as of writeln, with partial writes |
| FileOptions.Normalise | duktape/mod/mod.fs.file.hh:549-622 | options in any order and spelling become the fixed-position form, or are refused for a character or mode |
| FileOptions.Refused | duktape/mod/mod.fs.file.hh:553-577 | options are refused in the loop if and only if they contain a character that is none of the options, digits and separators |
| FileOptions.KindExactly | duktape/mod/mod.fs.file.hh:553-577 | which characters stand for which option, in either case |
| FileOptions.ModeExactly | duktape/mod/mod.fs.file.hh:577-585 | rights of three digits, with a leading zero or none at all, which means 644 |
| FileOptions.NormalExactly | duktape/mod/mod.fs.file.hh:587-622 | every position of the normal form, in terms of the letters given |
| FileOptions.OptionsMean | duktape/mod/mod.fs.file.hh:553-577 | what accepted options mean does not depend on their order, except that the last of e and c, and of b and t, counts |
| FileOptions.NormalFormIsStable | duktape/mod/mod.fs.file.hh:549-622 | a normal form is its own normal form, for all options |
| FileOptions.FlagsExactly | duktape/mod/mod.fs.file.hh:60-81 | for all accepted options, exactly when the system is asked to read, write, append, create, exclude and truncate, in terms of the letters given; appending without `w` only reads; and whether it blocks or synchronises |
| Glob.SearchRegex | duktape/mod/mod.fs.ext.hh:126-140 | the loop writes the expression whose reading is proved below |
| Glob.SyntaxExactly | duktape/mod/mod.fs.ext.hh:134 | the escaped characters and the wildcards are the SyntaxCharacters of ECMA-262 |
| Glob.PieceExactly | duktape/mod/mod.fs.ext.hh:131-135 | a backslash stands before every SyntaxCharacter but the wildcards, and before nothing else |
| Glob.PiecesInOrder | duktape/mod/mod.fs.ext.hh:130-137 | the expression is the pieces of the pattern in order |
| Glob.UnescapedRefused | duktape/mod/mod.fs.ext.hh:134 | behind every translated pattern an unescaped quantifier, bracket or bar is never read as a term |
| Glob.ExpressionParses | duktape/mod/mod.fs.ext.hh:126-140 | ECMA-262 reads the expression of every pattern, as one term for each character between two anchors |
| Glob.FoundExactly | duktape/mod/mod.fs.ext.hh:126-140 | a name is found if and only if it splits into parts that fit the pattern, wildcards standing for characters that end no line |
| Glob.FindsWhatMatches | duktape/mod/mod.fs.ext.hh:126-140 | for names of one line, with or without regard to case, the search finds exactly what the pattern matches |
| Glob.AgreesExactly | duktape/mod/mod.fs.ext.hh:126-140 | for every name: search and pattern agree for all patterns if and only if the name is one line |
| Glob.FoundMatches | duktape/mod/mod.fs.ext.hh:126-140 | what is found always matches |
| Glob.TwoLinesNotFound | duktape/mod/mod.fs.ext.hh:131-132 | an instance: a name with a line feed that a star matches and the search does not find |
| IterateObject.Engine.Apply | duktape/mod/mod.xlang.hh:96-100 | the swaps and copies call the function with value, key and object and leave one result |
| IterateObject.Engine.Loop | duktape/mod/mod.xlang.hh:95-131 | from [enum, fn, this] the function, which may change the object as it likes, is called on the shortest deciding prefix of what is delivered, in order, and only the result stays |
| IterateObject.NextItem | duktape/mod/mod.xlang.hh:95 | what is delivered after n calls is property n of one sequence, which a function that changes the object determines by its calls |
| IterateObject.Engine.Iterate | duktape/mod/mod.xlang.hh:81-132 | the same from the arguments of the script function, which are checked |
| IterateObject.QuantifierExact | duktape/mod/mod.xlang.hh:104-130 | any, none and all return exactly whether some, no or every result is the boolean true |
| IterateObject.QuantifiesOverProperties | duktape/mod/mod.xlang.hh:95-131 | for a function that answers for value, key and object, any, none and all are the quantifiers over the properties, in this order of arguments, with keys as numbers for arrays |
| IterateObject.ErrorExact | duktape/mod/mod.xlang.hh:99-103 | an error of the function surfaces if and only if nothing before it decides |
| Selector.ScanIsWalk | duktape/duktape.hh:1441-1469 | scanning a name character by character walks the path it spells; a name that spells none selects nothing |
| Selector.ScanIsBuild | duktape/duktape.hh:3036-3077 | defining objects along a name builds the path it spells; a name that spells none ends in an error |
| Selector.AlphabetExactly | duktape/duktape.hh:1453 | letters of both cases, digits and the underscore make names, and nothing else |
| Selector.DottedPath | duktape/duktape.hh:1441-1469 | such parts with dots between them spell exactly the path of these parts |
| Selector.ForeignRefused | duktape/duktape.hh:1453-1454 | a name with any other character spells no path |
| Selector.SplitExactly | duktape/duktape.hh:199-228 | a selector is invalid if and only if it is empty, ends in a dot, or has its only dot at the front |
| Selector.PathOfName | duktape/duktape.hh:199-228 | a name whose base can be built spells a path itself if and only if its last part is a word and no dot is doubled before it |
| Selector.DoubledDot | duktape/duktape.hh:199-228 | a name that can be defined and not be selected |
| Selector.Engine.Select | duktape/duktape.hh:1441-1469 | the value found is on top of the stack, or the stack is as before |
| Selector.Engine.DefineR | duktape/duktape.hh:3036-3077 | missing objects are created, existing ones followed, and the last one is on top |
| Selector.Engine.Define | duktape/duktape.hh:2976-2984 | heap and result of a definition; the stack is as before in every case |
| Selector.DefineOutcome | duktape/duktape.hh:2976-3077 | which definitions fail because of the name, and which because of the objects |
| Selector.BadBase | duktape/duktape.hh:3058-3068 | a base with a blank is refused as a bad name |
| Selector.Engine.Undef | duktape/duktape.hh:2807-2831 | heap and result of a removal; the stack is as before in every case |
| Selector.UndefOutcome | duktape/duktape.hh:2807-2831 | a removal succeeds when nothing is there to remove, and fails only for bad selectors and primitives in the way |
| Selector.DefineThenSelect | duktape/duktape.hh:2976-3077 | after a successful definition, in every graph with prototypes: a name that spells no path selects nothing; otherwise, on the heap with the missing objects created, a path that does not ask its own object for the property selects the value, and any other path goes on from the value where it first asks |
| Selector.DefinedIsSelected | duktape/duktape.hh:2976-3077 | a number, a text, or an object from which no path leads back to itself or to the property is selected if and only if the name spells a path that does not pass itself on the heap with the missing objects created |
| Selector.PlainRoundTrip | duktape/duktape.hh:2976-3077 | the same on the heap before the call, for plain paths: those whose missing part new objects do not inherit |
| Selector.PassesAsBefore | duktape/duktape.hh:2976-3077 | a plain path passes itself after its missing objects were created if and only if it did before, and then none was missing |
| Selector.TreeRoundTrip | duktape/duktape.hh:2976-3077 | in every tree whose objects rank above the usual prototype, as the heap is before the call, any value defined under a name with a path is selected by that name |
| Selector.FirstRoundTrip | duktape/duktape.hh:2976-3077 | in particular in a new engine |
| Selector.NewPartNeverPasses | duktape/duktape.hh:2976-3077 | no path passes itself in which the last part of the name does not occur |
| Selector.TreesNeverPass | duktape/duktape.hh:2976-3077 | in a heap that is an object tree, or any graph whose properties lead down and whose prototypes do not lead up, no path passes itself; of the heap with missing objects created this says nothing |
| Selector.PrototypeLosesValue | duktape/duktape.hh:2976-3077 | an instance for that: a tree that can reach the usual prototype, in which the value defined as p.x.x.x cannot be selected |
| Selector.CircleLosesValue | duktape/duktape.hh:2976-3077 | a circle in which the value cannot be selected |
| Selector.UndefThenSelect | duktape/duktape.hh:2807-2831 | after a removal the name selects what the object inherits under it, and nothing if it inherits nothing; a path that passes itself goes on from the inherited value |
| Selector.UndefExact | duktape/duktape.hh:2807-2831 | a removed name selects something only if the object inherits such a property, and if and only if it does when its path does not pass itself |
| Selector.InheritedSurvives | duktape/duktape.hh:2807-2831 | an instance: a property of the usual prototype is removed from an object and still selected |
| Selector.DefineFrame | duktape/duktape.hh:2976-3077 | no object, prototypes included, changes but in the properties by which the path goes through it |
| Selector.UndefFrame | duktape/duktape.hh:2807-2831 | no object changes but in the property that the last part of the name is of the object its base leads to, for all names that undef accepts |
| Selector.StaysSound | duktape/duktape.hh:2807-3077 | no operation, failing or not, leaves a reference to an object that does not exist or a broken prototype chain |
| IpAddress.IpAddress.Str | duktape/mod/mod.sys.socket.hh:269-290 | the text is read back as the same address and port, and it is empty for no address only |
| IpAddress.TextExactly | duktape/mod/mod.sys.socket.hh:269-290 | the address, a colon and the port as a decimal numeral without leading zeros; brackets around IPv6 |
| IpAddress.BaseTen | duktape/mod/mod.sys.socket.hh:269-366 | numerals have base ten |
| IpAddress.IpAddress.SetStr | duktape/mod/mod.sys.socket.hh:300-367 | success and the new address are those of the parsing function, and a refused text leaves no address |
| IpAddress.ParseV4 | duktape/mod/mod.sys.socket.hh:328-366 | an IPv4 text with any number behind the colon is read, the number reduced to a port |
| IpAddress.ParseV6 | duktape/mod/mod.sys.socket.hh:305-366 | the same for a bracketed IPv6 text |
| IpAddress.MaskV4 | duktape/mod/mod.sys.socket.hh:314-327 | a net mask of one to three digits is accepted, with a port behind it or without |
| IpAddress.MaskV6 | duktape/mod/mod.sys.socket.hh:314-327 | the same for IPv6 |
| IpAddress.BracketMaskV6 | duktape/mod/mod.sys.socket.hh:305-327 | and in brackets, with the port behind them |
| IpAddress.BadMaskRefused | duktape/mod/mod.sys.socket.hh:314-345 | empty masks, masks of more than three digits and masks with other characters are refused |
| IpAddress.BadFormRefused | duktape/mod/mod.sys.socket.hh:303-313 | texts of less than two characters and misplaced brackets are refused |
| IpAddress.BadPortRefused | duktape/mod/mod.sys.socket.hh:339-341 | ports with anything but digits in them are refused |
| IpAddress.BadMaskPortRefused | duktape/mod/mod.sys.socket.hh:318-326 | a colon behind a net mask needs a mask before it and a port behind it |
| IpAddress.ColonFirstRefused | duktape/mod/mod.sys.socket.hh:328-335 | a text with its only colon at the front is refused |
| IpAddress.TwoPortsRefused | duktape/mod/mod.sys.socket.hh:328-335 | a port in the brackets and another one behind them is refused |
| IpAddress.TwoPortsWithMaskRefused | duktape/mod/mod.sys.socket.hh:318-326 | and so it is with a net mask in the brackets |
| IpAddress.RoundTrip | duktape/mod/mod.sys.socket.hh:269-367 | every address with its port comes back from its text |
| IpAddress.AcceptedIsStable | duktape/mod/mod.sys.socket.hh:269-367 | what is accepted is an address, and its printed form is accepted as the same one |
| IpAddress.PlainV4 | duktape/mod/mod.sys.socket.hh:328-335 | an IPv4 text without a port, or with a colon and nothing behind it, has port 0 |
| IpAddress.PlainV6 | duktape/mod/mod.sys.socket.hh:300-367 | an IPv6 text without brackets has port 0 |

## Left out

- Md5.Hasher.Update: ends where the 32-bit loop index wraps, because the code would then read behind the chunk; the parameter of the code is a 32-bit size, so a chunk of 2^32 bytes or more does not exist there.
- FileLines.File.Write: leaves out the runs that never end, in which write calls accept nothing for ever.
- Sha1.CodeIsSha1: one direction only; that a message whose words are decoded differently also gets a different value would be a statement about collisions.
- Sha512.Hasher.Update: counts only the bytes that the code takes; those it skips in chunks of 2^32 bytes and more are described by `Sha512.TakenExact`.
- Crc8.Crc8: covers at most 255 bytes, which is what its 8-bit size parameter can say.
- Hexadecimal printing of digests, the file and stream wrappers, null data pointers and the big-endian preprocessor branches of the hash module.
- Rounding in the linear fit: the model is over the reals.
- Process creation (fork, exec, pipes, environment), the Windows process branch except for its command line, and POSIX quoting, whose backslash form is not shell syntax.
- Reuse of process numbers by the system, and signals sent by kill itself to a child that kill has just reaped.
- Exceptions thrown by the output callback or for a timeout, a call of exec whose process never ends, and its options.
- Append mode beyond its open flags, non-blocking files beyond the refusal of readln and writeln, closed file objects, text conversion by the Windows runtime.
- File system functions other than the pattern translation; directory walking and file types.
- Getters and setters, property attributes (definitions are forced), locking, and letters of other locales than C in the selector functions.
- Resource addresses, host lookup, Unix socket addresses, and the system's own text forms of addresses.
- Engine internals, conversions between script and native values, native objects and exception forwarding.
