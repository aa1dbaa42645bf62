# SOAAP: a verified model of its self-contained parts

SOAAP (Security-Oriented Analysis of Application Programs) is an LLVM-based
analyser that checks how an application is compartmentalised into sandboxes.
Most of it walks LLVM IR. This project models, in Dafny, the parts that do
not depend on LLVM:

- **The generate-ir wrapper engine** (`scripts/generate-ir/`). Build scripts
  invoke it in place of the compiler, linker, archiver, `ranlib`, `mv`, `ln`
  and `cp`. It covers:
  - the rule that names the bitcode file written beside each build product
    (`correspondingBitcodeName`);
  - the table of clang options that take a value;
  - the per-tool rewriting of the real command line into an IR-generation
    command;
  - the search for the bitcode siblings of a link's inputs;
  - the entry scripts' choice of wrapper;
  - `CommandWrapper.run`'s sequencing of the two commands.
- **Small data structures of the analyser**:
  - the de-duplicating worklist `QueueSet`;
  - the sandbox-name and class-name bit registries and their stringifiers
    (three generations of `SandboxUtils`, plus `ClassifiedUtils`);
  - the system-call index provider;
  - the sandbox-platform permission sets, including Capsicum's whitelist;
  - the function/bit-vector conversions of `FPTargetsAnalysis`;
  - the annotation parsing by which a `Sandbox` collects its shared
    globals, capabilities, creation points and allowed system calls.
- **Two report post-processors**:
  - `scripts/callgraph.py`, which parses function names and collapses call
    chains;
  - `scripts/soaap.py`, which turns SOAAP's JSON report into a call graph of
    warnings.

How the source is modelled:

- Imperative code stays imperative. A wrapper is a `class` whose methods
  rewrite `realCommand` and `generateIrCommand`. `QueueSet`, the registries,
  the platforms and `Sandbox` are classes whose fields the methods update.
  Loops are `while`/`for` loops, proved against specification functions.
- Exceptions (Python) and throws (C++) become `Result` values.
- The environment becomes parameters:
  - the file system is a set of present paths;
  - the `file` command is a function from path to output;
  - environment variables are booleans;
  - `subprocess.check_call` success is an oracle;
  - the LLVM module is the set of names it defines.

| file | module |
|---|---|
| wrappers.dfy | `Wrappers`: Option and Result |
| strings.dfy | `Strings`: the Python/C++ string operations the sources use |
| commandwrapper.dfy | `CommandWrapper`: commandwrapper.py |
| compilerwrapper.dfy | `CompilerWrapper`: compilerwrapper.py |
| linkerwrapper.dfy | `LinkerWrapper`: linkerwrapper.py |
| coreutils.dfy | `CoreutilsWrapper`: unixcommandswrapper.py and coreutilswrapper.py |
| runner.dfy | `Runner`: `CommandWrapper.run` and the IR-command runners |
| dispatch.dfy | `Dispatch`: llvm-ir-wrapper.py, clang-and-emit-llvm-ir.py, mv-and-emit-llvm-ir.py |
| queueset.dfy | `QueueSet`: soaap/ADT/QueueSet.h |
| registry.dfy | `Registry`: the name/bit-index registries and stringifiers |
| sandboxutils.dfy | `SandboxUtils`: the sandbox lookups and sandbox-list parsing |
| syscalls.dfy | `SysCalls`: SysCallProvider, SandboxPlatform, Capsicum |
| fptargets.dfy | `FPTargets`: FPTargetsAnalysis |
| sandbox.dfy | `Sandboxes`: soaap/Common/Sandbox.cpp |
| jsonvalues.dfy | `JsonValues`: decoded JSON and Python's exceptions |
| callgraph.dfy | `CallGraph`: the `Function` class of scripts/callgraph.py |
| simplify.dfy | `ChainSimplify`: `simplify` of scripts/callgraph.py |
| soaap.dfy | `SoaapReport`: `get` and `parse` of scripts/soaap.py |

## Model

| member | source | states |
|---|---|---|
| CommandWrapper.BitcodeNameUnversioned | scripts/generate-ir/commandwrapper.py:94-98 | a name without ".so." gets ".bc" appended, so the result ends in ".bc" |
| CommandWrapper.BitcodeNameVersioned | scripts/generate-ir/commandwrapper.py:95-97 | a versioned library `stem.so.version` becomes `stem.so.bc.version` |
| CommandWrapper.BitcodeNameOfLibrary | scripts/generate-ir/commandwrapper.py:95-97 | "libfoo.so.1.2.3" becomes "libfoo.so.bc.1.2.3" |
| CommandWrapper.BitcodeNameOfObject | scripts/generate-ir/commandwrapper.py:98 | "foo.o" becomes "foo.o.bc" |
| CommandWrapper.BitcodeNameLonger | scripts/generate-ir/commandwrapper.py:94-98 | the bitcode name is strictly longer than the native name, so it never names the native file |
| CommandWrapper.BitcodeNameSharedLib | scripts/generate-ir/commandwrapper.py:94-98 | the bitcode name contains ".so.bc" exactly when the native name contains ".so." or ends in ".so"; this is the test the linker's mode relies on |
| CommandWrapper.ParamTableShape | scripts/generate-ir/commandwrapper.py:292-381 | every option of the table starts with "-", is not a "-g…" or "-l…" option, and is none of the options the wrappers treat specially ("-c", "-finline", "-Wa,--noexecstack", the unsupported options, "-shared", "-ffreestanding", "-pthread") |
| CommandWrapper.ParamTableCache.Get | scripts/generate-ir/commandwrapper.py:283-292 | the table is filled on the first call, and every call returns the same set, the one filled first |
| CommandWrapper.ResolveExecutable | scripts/generate-ir/commandwrapper.py:124-129 | with delegation the executable comes from $PATH; otherwise a non-empty SOAAP binary wins and $PATH is the fallback |
| CommandWrapper.StripAll | scripts/generate-ir/commandwrapper.py:118 | every argument is kept, in order, with its surrounding whitespace removed |
| CommandWrapper.InitialMode | scripts/generate-ir/commandwrapper.py:122 | the linker starts in the unknown mode and the compiler in the object-file mode; the cp, mv and ln wrappers get the coreutils mode they evidently intend (see Findings) |
| CommandWrapper.CommandWrapper.constructor | scripts/generate-ir/commandwrapper.py:111-123 | the stripped command with the resolved executable first, an empty IR command, `nothingToDo` false, an empty output, and the executable name as invoked |
| CommandWrapper.Create | scripts/generate-ir/commandwrapper.py:111-130 | an empty command is an IndexError; an executable that resolves to nothing fails the `realCommand[0]` assertion; otherwise a fresh wrapper in its initial state whose first argument is non-empty. This is the corrected constructor of the Findings: the cp, mv and ln wrappers are built with the coreutils mode |
| CommandWrapper.CreateAsWritten | scripts/generate-ir/unixcommandswrapper.py:23-27 | the constructors as written: the base constructor's IndexError and assertion come first; once they pass, exactly the cp, mv and ln wrappers of both versions raise AttributeError on `Mode.coreutils`, and every other wrapper is built as Create builds it |
| CommandWrapper.CoreutilsModeUndeclared | scripts/generate-ir/coreutilswrapper.py:22-25 | reading the mode as written fails exactly for the wrappers whose intended mode is the one the enumeration lacks, with AttributeError; every other wrapper gets its intended mode |
| CommandWrapper.MvWrapperRaisesAsWritten | scripts/generate-ir/unixcommandswrapper.py:51-54 | the mv wrapper of either version raises AttributeError as written, although its intended mode is the coreutils one |
| CompilerWrapper.ComputeWrapperCommand | scripts/generate-ir/compilerwrapper.py:30-107 | the wrapper's new state is exactly the compile specification `Compile` applied to the old real command, and its error is the specification's error |
| CompilerWrapper.CompileWith | scripts/generate-ir/compilerwrapper.py:33-107 | the same, for any option table |
| CompilerWrapper.ScanArguments | scripts/generate-ir/compilerwrapper.py:36-91 | the loop over the original arguments ends in the state of the specification's scan, or fails with its error |
| CompilerWrapper.ScanArgument | scripts/generate-ir/compilerwrapper.py:41-91 | one argument, skipped or scanned, advances the scan exactly as the specification does |
| CompilerWrapper.ScanOption | scripts/generate-ir/compilerwrapper.py:45-76 | one option has the effect the specification's step gives it |
| CompilerWrapper.ScanInput | scripts/generate-ir/compilerwrapper.py:77-91 | one input file has the effect the specification's step gives it |
| CompilerWrapper.FinishCommand | scripts/generate-ir/compilerwrapper.py:93-107 | the checks on the inputs and the appended output and analysis options are those of the specification's `Finish` |
| CompilerWrapper.ScanFromUnfold | scripts/generate-ir/compilerwrapper.py:41-91 | a failing step ends the scan with its error; a successful one continues the scan from its result |
| CompilerWrapper.CompileAfterScan | scripts/generate-ir/compilerwrapper.py:31-107 | with "-c" present, compiling is the scan followed by the final checks |
| CompilerWrapper.FinishResult | scripts/generate-ir/compilerwrapper.py:93-107 | after the final checks the IR command starts with the IR compiler and ends with the three analysis options, there is an input, no unwanted "-g…", "-finline", unsupported or "-Wa,--noexecstack" option is copied except as an option's value, the output is the one given after "-o" or the one added, and an empty output is only produced when assembly may be skipped |
| CompilerWrapper.CompileResult | scripts/generate-ir/compilerwrapper.py:30-107 | the same facts for every successful compile: the analysis options end the IR command and no unwanted option reaches it |
| CompilerWrapper.StepKeepsInv | scripts/generate-ir/compilerwrapper.py:41-91 | every step of the scan keeps the invariant behind those facts |
| CompilerWrapper.ScanFromKeepsInv | scripts/generate-ir/compilerwrapper.py:41-91 | so does the whole scan |
| CompilerWrapper.UnwantedIsOption | scripts/generate-ir/compilerwrapper.py:47-60 | every option dropped from the IR command starts with "-" |
| CompilerWrapper.BitcodeNameNotOption | scripts/generate-ir/compilerwrapper.py:71 | the bitcode name of a non-option is not an option |
| CompilerWrapper.MuslStubNotOption | scripts/generate-ir/compilerwrapper.py:80-83 | rewriting an x86_64 assembly path to its C stub does not make it an option |
| CompilerWrapper.UnsupportedShape | scripts/generate-ir/compilerwrapper.py:52 | the two unsupported options are options that no earlier branch catches |
| CompilerWrapper.StepRealCmd | scripts/generate-ir/compilerwrapper.py:42-57 | a step removes the first occurrence of an unsupported option from the real command and changes it in no other way; skipping the next argument follows a value-taking option |
| CompilerWrapper.StepKeepsRemovalInv | scripts/generate-ir/compilerwrapper.py:52-57 | each step keeps the count of removed unsupported options equal to the count scanned |
| CompilerWrapper.RemovalStep | scripts/generate-ir/compilerwrapper.py:52-57 | the same, for one step's effect on the real command |
| CompilerWrapper.RemovalStepRemoves | scripts/generate-ir/compilerwrapper.py:56 | a scanned unsupported option leaves the real command once |
| CompilerWrapper.RemovalStepKeeps | scripts/generate-ir/compilerwrapper.py:42-76 | any other argument leaves the real command as it is |
| CompilerWrapper.ScanFromKeepsRemovalInv | scripts/generate-ir/compilerwrapper.py:41-91 | the whole scan keeps that count |
| CompilerWrapper.UnsupportedRemoved | scripts/generate-ir/compilerwrapper.py:52-57 | when no unsupported option is an option's value, a successful compile leaves no unsupported option in the real command and every other argument as often as before |
| CompilerWrapper.ScanRemoves | scripts/generate-ir/compilerwrapper.py:36-91 | the same fact about the scan |
| CompilerWrapper.RemovalComplete | scripts/generate-ir/compilerwrapper.py:52-57 | when the count invariant holds at the end of the command, every unsupported option is gone and everything else is intact |
| CompilerWrapper.SkipExecutable | scripts/generate-ir/compilerwrapper.py:36-44 | the first argument, the executable, is skipped |
| CompilerWrapper.ExampleOptionStep | scripts/generate-ir/compilerwrapper.py:75-76 | "-c" is copied to the IR command |
| CompilerWrapper.ExampleInputStep | scripts/generate-ir/compilerwrapper.py:90-91 | "foo.c" becomes an input and is copied |
| CompilerWrapper.ExampleFinish | scripts/generate-ir/compilerwrapper.py:95-101 | without "-o", the single input "foo.c" gives the output "foo.o.bc" |
| CompilerWrapper.ExampleScan | scripts/generate-ir/compilerwrapper.py:36-91 | the scan of `clang++ -c foo.c` |
| CompilerWrapper.CompileExample | scripts/generate-ir/compilerwrapper.py:30-107 | `clang++ -c foo.c` gives `clang++ -c foo.c -o foo.o.bc -gline-tables-only -emit-llvm -fno-inline` |
| LinkerWrapper.Resolve | scripts/generate-ir/linkerwrapper.py:161-170 | a resolved sibling always exists, and an existing bitcode sibling is always the one chosen |
| LinkerWrapper.FindBitcodeFiles | scripts/generate-ir/linkerwrapper.py:157-192 | the two loops return exactly the files of the specification `FindBitcode`: the siblings found, then the unresolved inputs `file` calls bitcode |
| LinkerWrapper.LookUpSiblings | scripts/generate-ir/linkerwrapper.py:160-174 | the first loop collects the siblings in input order and the inputs left to test |
| LinkerWrapper.KeepBitcode | scripts/generate-ir/linkerwrapper.py:175-188 | the second loop keeps, in order, the inputs whose `file` line says "LLVM IR bitcode" |
| LinkerWrapper.SiblingsMember | scripts/generate-ir/linkerwrapper.py:160-170 | a name is among the siblings exactly when it resolves some input |
| LinkerWrapper.UnresolvedMember | scripts/generate-ir/linkerwrapper.py:171-174 | an input is tested by `file` exactly when it has no sibling |
| LinkerWrapper.BitcodeOnlyMember | scripts/generate-ir/linkerwrapper.py:180-186 | a tested input is kept exactly when `file` identifies it as bitcode |
| LinkerWrapper.FindBitcodeMember | scripts/generate-ir/linkerwrapper.py:157-192 | a result is either the sibling of an input, or an input without sibling that `file` identifies as bitcode, and every such file is a result |
| LinkerWrapper.SiblingsPlusUnresolved | scripts/generate-ir/linkerwrapper.py:160-174 | every input is either resolved or tested, never both |
| LinkerWrapper.BitcodeOnlyShorter | scripts/generate-ir/linkerwrapper.py:180-188 | the kept inputs are no more than the tested ones |
| LinkerWrapper.FindBitcodeLength | scripts/generate-ir/linkerwrapper.py:157-192 | at most one bitcode file is found per input |
| LinkerWrapper.BitcodeNames | scripts/generate-ir/linkerwrapper.py:161 | one bitcode name per file, in order |
| LinkerWrapper.AllSiblings | scripts/generate-ir/linkerwrapper.py:160-164 | when every sibling exists, the siblings are the bitcode names and nothing is left to test |
| LinkerWrapper.FindBitcodeAllSiblings | scripts/generate-ir/linkerwrapper.py:157-192 | when every sibling exists, the result is the inputs' bitcode names, in order and with duplicates |
| LinkerWrapper.ParseCommandLine | scripts/generate-ir/linkerwrapper.py:56-105 | the wrapper's new lists, flag, output and mode are those of the specification `Parse`, and the real command loses its first "-fexcess-precision=standard" |
| LinkerWrapper.LinkArgument | scripts/generate-ir/linkerwrapper.py:63-93 | one argument has the effect the specification's step gives it, and the next argument is skipped exactly after "-o" or a value-taking option |
| LinkerWrapper.LinkScanFromUnfold | scripts/generate-ir/linkerwrapper.py:62-93 | a failing step ends the scan with its error; a successful one continues from its result |
| LinkerWrapper.Args | scripts/generate-ir/linkerwrapper.py:62-65 | every argument after the executable is among the scanned arguments |
| LinkerWrapper.DefaultOutputNotShared | scripts/generate-ir/linkerwrapper.py:95-99 | the default output "a.out.bc" does not make the link a shared library |
| LinkerWrapper.StepGrows | scripts/generate-ir/linkerwrapper.py:63-93 | a step only adds to the lists and only sets the flags |
| LinkerWrapper.StepClassifies | scripts/generate-ir/linkerwrapper.py:66-93 | an argument that is looked at ends up where its form says: "-l…" and shared objects as libraries, "-pthread" as "-lpthread", "-ffreestanding" as the flag, "-shared" as the mode, other positional arguments as candidates |
| LinkerWrapper.StepAdds | scripts/generate-ir/linkerwrapper.py:66-93 | a step adds only the argument it looks at, or "-lpthread" |
| LinkerWrapper.StepOutputFacts | scripts/generate-ir/linkerwrapper.py:67-75 | only "-o" changes the output, to the bitcode name of the next argument, and the mode becomes shared-lib only for "-shared" or a ".so.bc" output |
| LinkerWrapper.StepKeepsLinkInv | scripts/generate-ir/linkerwrapper.py:62-93 | each step keeps the scan's invariant |
| LinkerWrapper.LinkScanKeepsInv | scripts/generate-ir/linkerwrapper.py:62-93 | so does the whole scan |
| LinkerWrapper.LinkScanStart | scripts/generate-ir/linkerwrapper.py:58-65 | the scan skips the executable |
| LinkerWrapper.ParseInv | scripts/generate-ir/linkerwrapper.py:56-99 | the final state of the scan satisfies the invariant |
| LinkerWrapper.ParseSound | scripts/generate-ir/linkerwrapper.py:81-93 | every candidate is a positional argument that is not a shared object; every library is "-lpthread", a "-l…" argument or a shared object of the command; the no-default-libraries flag needs "-ffreestanding" |
| LinkerWrapper.ParseComplete | scripts/generate-ir/linkerwrapper.py:62-93 | every argument that is not an option's value is classified |
| LinkerWrapper.ParseMode | scripts/generate-ir/linkerwrapper.py:72-99 | the final mode is never unknown; it is shared-lib exactly for a reason ("-shared", a shared output, or a shared mode before), and executable otherwise |
| LinkerWrapper.ParseOutput | scripts/generate-ir/linkerwrapper.py:67-97 | the output is never empty; it comes from "-o", or was there before, or is "a.out.bc"; without "-o" it is "a.out.bc" unless one was set before |
| LinkerWrapper.LinkScanError | scripts/generate-ir/linkerwrapper.py:68-69 | the only error of the scan is "-o flag without parameter!", and it needs a final "-o" |
| LinkerWrapper.LinkScanReachesEnd | scripts/generate-ir/linkerwrapper.py:67-69 | a final "-o" that is not an option's value does make the scan fail |
| LinkerWrapper.ParseError | scripts/generate-ir/linkerwrapper.py:67-69 | parsing fails exactly for a final "-o" that is not an option's value, with that message |
| LinkerWrapper.ComputeLinkCommand | scripts/generate-ir/linkerwrapper.py:28-54 | the wrapper's new state is that of the specification `Link`, and its error is the specification's error |
| LinkerWrapper.LinkWith | scripts/generate-ir/linkerwrapper.py:34-54 | the same after the executable checks |
| LinkerWrapper.BuildLinkCommand | scripts/generate-ir/linkerwrapper.py:36-54 | the llvm-link command built from the parsed lists is the specification's `LinkInputs` |
| LinkerWrapper.LinkExecutable | scripts/generate-ir/linkerwrapper.py:29-54 | a direct ld, gold, lld or ld.* is NotImplemented; any other non-clang tool fails the assertion; a successful link is by clang or clang++ or has no default libraries |
| LinkerWrapper.InputsFromCommand | scripts/generate-ir/linkerwrapper.py:41-45 | every bitcode input found belongs to a positional argument of the command |
| LinkerWrapper.LinkCommandShape | scripts/generate-ir/linkerwrapper.py:36-54 | the command is llvm-link, "-o", the output, then bitcode inputs and libraries of the command; clang adds "-lc" and clang++ adds "-lc" and "-lc++" at the end |
| LinkerWrapper.LinkedArgs | scripts/generate-ir/linkerwrapper.py:45-52 | after the head, each argument is a bitcode input or a library argument |
| LinkerWrapper.LinkIncludes | scripts/generate-ir/linkerwrapper.py:36-93 | every candidate with a sibling has it in the command, and every library argument is passed on |
| LinkerWrapper.ComputeArCommand | scripts/generate-ir/linkerwrapper.py:113-129 | the wrapper's output, IR command and empty-archive flag are those of the specification `Archive` |
| LinkerWrapper.ArchiveResult | scripts/generate-ir/linkerwrapper.py:113-129 | `ar` succeeds exactly with at least 3 arguments and an operation containing "r", or "c" and "q"; with 2 it is an IndexError; the output is the bitcode name of argument 2; the command starts llvm-link -o output; the archive is empty exactly for 3 arguments; with every sibling present the members are their bitcode names, in order and with duplicates |
| LinkerWrapper.RanlibOutput | scripts/generate-ir/linkerwrapper.py:150-151 | the output is the bitcode name of the first argument, and a missing argument is an IndexError |
| LinkerWrapper.ComputeRanlibCommand | scripts/generate-ir/linkerwrapper.py:150-153 | ranlib sets that output and always has nothing to do |
| CoreutilsWrapper.Translate | scripts/generate-ir/unixcommandswrapper.py:33-41 | one output per argument, in order: a library's bitcode name, any other argument unchanged |
| CoreutilsWrapper.ComputeUnixCommand | scripts/generate-ir/unixcommandswrapper.py:29-48 | an empty command is an IndexError; otherwise the IR command is the specification `Generate` (with "-f" injected when the wrapper needs force and no force flag is given), and `nothingToDo` is set exactly when no argument is a library |
| CoreutilsWrapper.AppendArguments | scripts/generate-ir/unixcommandswrapper.py:33-41 | the loop appends the translated arguments and reports whether some argument was a library and whether some non-library argument was a force flag |
| CoreutilsWrapper.ComputeCoreutilsCommand | scripts/generate-ir/coreutilswrapper.py:27-40 | the older wrapper: the same IR command without any force injection, and the same `nothingToDo` |
| CoreutilsWrapper.CopyArguments | scripts/generate-ir/coreutilswrapper.py:31-36 | the older loop appends the translated arguments and reports whether some argument was a library |
| CoreutilsWrapper.ArgumentsSnoc | scripts/generate-ir/unixcommandswrapper.py:33-41 | one more argument extends the translation by its own translation and the two flags by its own contribution |
| CoreutilsWrapper.GenerateElementwise | scripts/generate-ir/unixcommandswrapper.py:32-44 | with a library argument, the IR command is the command name, then "-f" when injected, then each argument translated, in order |
| CoreutilsWrapper.GenerateEmpty | scripts/generate-ir/unixcommandswrapper.py:46-48 | the IR command is empty exactly when no argument is a library |
| CoreutilsWrapper.ForceGuaranteed | scripts/generate-ir/unixcommandswrapper.py:39-44 | an mv or ln with something to do always has a force flag in its IR command |
| CoreutilsWrapper.ForceInjected | scripts/generate-ir/unixcommandswrapper.py:43-44 | without a force flag, "-f" is inserted right after the command name |
| CoreutilsWrapper.ForceKept | scripts/generate-ir/unixcommandswrapper.py:39-41 | a force flag given among the arguments keeps its place and no "-f" is added |
| CoreutilsWrapper.MoveExample | scripts/generate-ir/unixcommandswrapper.py:29-48 | `mv -f foo.so bar.so` gives `mv -f foo.so.bc bar.so.bc` |
| CoreutilsWrapper.LinkExample | scripts/generate-ir/unixcommandswrapper.py:29-48 | `ln -s -f foo.so bar.so` gives `ln -s -f foo.so.bc bar.so.bc` |
| CoreutilsWrapper.InjectExample | scripts/generate-ir/unixcommandswrapper.py:43-44 | `mv foo.so bar.so` gives `mv -f foo.so.bc bar.so.bc` |
| CoreutilsWrapper.CopyExample | scripts/generate-ir/unixcommandswrapper.py:63-66 | `cp foo.so bar.so` gives `cp foo.so.bc bar.so.bc`, with no "-f" |
| CoreutilsWrapper.NoLibraryExample | scripts/generate-ir/unixcommandswrapper.py:46-48 | `mv -f foo.o bar.o` moves no library and gives an empty IR command |
| Runner.RunCalls | scripts/generate-ir/commandwrapper.py:159-161 | running commands with `check_call` takes at most one action per command |
| Runner.RunCallsFacts | scripts/generate-ir/commandwrapper.py:159-161 | the commands are called in order; the run succeeds exactly when every command succeeds; a failure is a CalledProcessError for the last command called, after all earlier ones succeeded |
| Runner.RunCallsAppend | scripts/generate-ir/commandwrapper.py:143-150 | running two lists of commands is running the first, then the second only if the first succeeded |
| Runner.IrCommands | scripts/generate-ir/commandwrapper.py:153-154 | every role runs at least one IR-generation command |
| Runner.Calls | scripts/generate-ir/commandwrapper.py:159-161 | one `check_call` action per command, in order |
| Runner.EmptyIrRejected | scripts/generate-ir/commandwrapper.py:140-141 | nothing is run exactly when the IR command is empty and there is something to do, and then the run raises "Could not determine IR command line from" |
| Runner.NothingToDoRunsOnlyReal | scripts/generate-ir/commandwrapper.py:143-150 | with nothing to do only the real command runs, and the run succeeds exactly when it does |
| Runner.CompletedRunOrder | scripts/generate-ir/commandwrapper.py:143-150 | a successful run called the IR commands, all successful, and then the real command |
| Runner.IrFailureSkipsReal | scripts/generate-ir/commandwrapper.py:147-161 | a failing IR command ends the run with a CalledProcessError before the real command runs |
| Runner.SkippedAssemblyWritesEmptyBitcode | scripts/generate-ir/compilerwrapper.py:109-113 | a compile whose assembly input was skipped writes an empty bitcode file to its output instead of running its IR command |
| Runner.EmptyArchiveLinksTemporary | scripts/generate-ir/linkerwrapper.py:131-142 | an empty archive compiles an empty bitcode file to a temporary file and links it, then runs the real command |
| Runner.RunCommand | scripts/generate-ir/commandwrapper.py:159-161 | one command is appended to the trace, and fails with CalledProcessError exactly when it does not succeed |
| Runner.RunGenerateIr | scripts/generate-ir/commandwrapper.py:153-154 | the IR commands of the wrapper's role are run as `RunCalls` runs them; only the archiver's IR command changes, gaining the temporary file |
| Runner.RunComputed | scripts/generate-ir/commandwrapper.py:140-150 | after the computation the run is exactly the specification `Execute` of the wrapper's state |
| Runner.Run | scripts/generate-ir/commandwrapper.py:132-150 | with NO_EMIT_LLVM_IR set, the real command replaces the process unchanged and the wrapper is untouched; otherwise the outcome is `RunAfterCompute` of the wrapper's state before the call: the error of the role's computeWrapperCommand with nothing run, or `Execute` of the fields that computation leaves; `execv` happens exactly when NO_EMIT_LLVM_IR is set |
| Runner.ComputeFor | scripts/generate-ir/commandwrapper.py:137-138 | computeWrapperCommand of the wrapper's role raises exactly the error that role's specification (Compile, Link, Archive, RanlibOutput, Generate) gives for the state before the call, and otherwise leaves exactly the fields it computes |
| Runner.NothingToGenerateRunsOnlyReal | scripts/generate-ir/unixcommandswrapper.py:46-48 | a cp, mv or ln that moves no library, and a ranlib with an argument, run only the real command, and succeed exactly when it does |
| Dispatch.StripEnd | scripts/generate-ir/clang-and-emit-llvm-ir.py:48-52 | a text ending in the suffix loses exactly that suffix; any other text is returned unchanged |
| Dispatch.StripEndAppended | scripts/generate-ir/mv-and-emit-llvm-ir.py:11-15 | stripping a suffix just appended gives the text back |
| Dispatch.ScriptTool | scripts/generate-ir/clang-and-emit-llvm-ir.py:54 | the tool name derived from the script path contains no "/" |
| Dispatch.ScriptToolOfInstalledName | scripts/generate-ir/mv-and-emit-llvm-ir.py:17 | the script installed as `dir/tool-and-emit-llvm-ir.py` acts as `tool` |
| Dispatch.BasenameAfterSlash | scripts/generate-ir/llvm-ir-wrapper.py:47 | the base name of `dir/name` is `name` |
| Dispatch.AliasAsWritten | scripts/generate-ir/llvm-ir-wrapper.py:48-51 | as written, only gcc and cc are renamed (to clang); every other name is kept, g++ and c++ included |
| Dispatch.Alias | scripts/generate-ir/llvm-ir-wrapper.py:48-51 | the intended aliasing: gcc and cc become clang, g++ and c++ become clang++, other names are kept |
| Dispatch.DispatchAs | scripts/generate-ir/llvm-ir-wrapper.py:52-79 | the chosen wrapper receives the command line with the aliased name in front |
| Dispatch.SameToolSameDispatch | scripts/generate-ir/llvm-ir-wrapper.py:47-79 | command lines naming the same tool after aliasing, with the same arguments, are dispatched alike |
| Dispatch.SelectCompilerDriver | scripts/generate-ir/llvm-ir-wrapper.py:55-60 | clang and clang++ go to the compiler wrapper exactly when "-c", "-S" or "-E" is given, and to the linker wrapper otherwise |
| Dispatch.SelectTools | scripts/generate-ir/llvm-ir-wrapper.py:61-77 | ar, ranlib, ld/lld/gold, mv, ln and cp get their wrappers; install fails because InstallWrapper is defined nowhere |
| Dispatch.SelectRejectsUnknown | scripts/generate-ir/llvm-ir-wrapper.py:78-79 | any other name raises a RuntimeError |
| Dispatch.ChooseRejectsUnknown | scripts/generate-ir/llvm-ir-wrapper.py:55-79 | the wrapper choice fails with a RuntimeError on every name it does not know |
| Dispatch.GccIsClang | scripts/generate-ir/llvm-ir-wrapper.py:48-49 | gcc and cc are dispatched exactly as clang |
| Dispatch.AliasedName | scripts/generate-ir/llvm-ir-wrapper.py:47-52 | a path is dispatched as its aliased base name |
| Dispatch.BasenameOfName | scripts/generate-ir/llvm-ir-wrapper.py:47 | a name without "/" is its own base name |
| Dispatch.GxxRejectedAsWritten | scripts/generate-ir/llvm-ir-wrapper.py:50-79 | as written, g++ and c++ reach the error branch and raise a RuntimeError |
| Dispatch.GxxCompiles | scripts/generate-ir/llvm-ir-wrapper.py:50-58 | with the intended aliasing, g++ or c++ with "-c" compiles as clang++ |
| Dispatch.GxxIsClangxx | scripts/generate-ir/llvm-ir-wrapper.py:50-51 | with the intended aliasing, g++ and c++ are dispatched exactly as clang++ |
| Dispatch.SelectClangScript | scripts/generate-ir/clang-and-emit-llvm-ir.py:54-75 | the chosen wrapper receives the command line with the stripped tool name in front |
| Dispatch.ClangScriptAgrees | scripts/generate-ir/clang-and-emit-llvm-ir.py:59-73 | this script compiles exactly for clang or clang++ with "-c"; on ar, ranlib and the linkers it agrees with llvm-ir-wrapper.py; "-S" without "-c" is an error here, where llvm-ir-wrapper.py compiles |
| Dispatch.ClangScriptRejectsUnknown | scripts/generate-ir/clang-and-emit-llvm-ir.py:59-75 | the script succeeds exactly on the seven tools it knows, except a clang "-S" without "-c" |
| Dispatch.ChooseMvScript | scripts/generate-ir/mv-and-emit-llvm-ir.py:21-28 | only mv and ln get a wrapper; cp fails because coreutilswrapper.py defines no CpWrapper, and anything else raises the script's error |
| Dispatch.SelectMvScript | scripts/generate-ir/mv-and-emit-llvm-ir.py:17-26 | the chosen wrapper receives the command line with the stripped tool name in front |
| Dispatch.MvScriptWrappers | scripts/generate-ir/mv-and-emit-llvm-ir.py:21-24 | this script picks the coreutilswrapper.py wrappers, which never inject "-f", while llvm-ir-wrapper.py picks the unixcommandswrapper.py ones |
| Dispatch.Launch | scripts/generate-ir/llvm-ir-wrapper.py:52-81 | a dispatch error is the run's only outcome; an empty command line is an IndexError and an unresolved executable the `realCommand[0]` assertion, with nothing run; with NO_EMIT_LLVM_IR the resolved executable replaces the process with the stripped arguments; otherwise the outcome is `RunAfterCompute` of the freshly built wrapper |
| QueueSet.Enqueued | soaap/ADT/QueueSet.h:24-30 | enqueueing a waiting element leaves the list as it is; a new one is appended at the back |
| QueueSet.DistinctCard | soaap/ADT/QueueSet.h:19-48 | a duplicate-free list has as many elements as its set |
| QueueSet.EnqueuedDistinct | soaap/ADT/QueueSet.h:24-30 | enqueueing keeps the list duplicate-free and adds the element to its set |
| QueueSet.EnqueueFreshInOrder | soaap/ADT/QueueSet.h:24-38 | enqueueing fresh, pairwise distinct elements appends them in order, so they leave first in, first out |
| QueueSet.EnqueueWaitingIsIgnored | soaap/ADT/QueueSet.h:25-29 | enqueueing only elements already waiting changes nothing |
| QueueSet.QueueSet.constructor | soaap/ADT/QueueSet.h:19-20 | a new queue is empty and valid |
| QueueSet.QueueSet.Enqueue | soaap/ADT/QueueSet.h:24-30 | returns true exactly when the element was not queued; the list gains it at the back only then; the set gains it; the set stays the list's elements, without duplicates |
| QueueSet.QueueSet.Dequeue | soaap/ADT/QueueSet.h:33-38 | on a non-empty queue, returns the front, removes it from the list and from the set, and it can then be enqueued again at the back |
| QueueSet.QueueSet.Empty | soaap/ADT/QueueSet.h:41-43 | true exactly when the list, and so the set, is empty |
| QueueSet.QueueSet.Size | soaap/ADT/QueueSet.h:46-48 | the length of the list, which is the size of the set |
| QueueSet.QueueSet.Clear | soaap/ADT/QueueSet.h:51-54 | both the list and the set become empty |
| Registry.SetBitsBelow | soaap/Util/ClassifiedUtils.cpp:16-17 | the set bits below a bound, each listed once, in ascending order |
| Registry.SetBitsBelowComplete | soaap/Util/ClassifiedUtils.cpp:16-17 | every set bit below the bound is listed |
| Registry.FilledStep | soaap/Util/ClassifiedUtils.cpp:17-18 | looking up a set bit through `operator[]` inserts "" for an index without a name and leaves a named index alone; a clear bit inserts nothing |
| Registry.NamesFollowBits | soaap/Util/ClassifiedUtils.cpp:29-39 | the names listed for a mask are, position by position, the names of its set bits in ascending order: one name per set bit |
| Registry.EmptyMaskNoNames | soaap/Util/ClassifiedUtils.cpp:12-27 | a mask with no bit set lists no name and prints as "[]" |
| Registry.NameRegistry.constructor | soaap/Util/ClassifiedUtils.cpp:8-10 | a registry starts with two empty maps and the counter at 0 |
| Registry.NameRegistry.Assign | soaap/Util/SandboxUtils.cpp:74-86 | a new name gets the counter as its index, which is returned; the counter moves on and both maps gain the pair; a known name returns -1 and changes nothing; the maps stay mutual inverses over the indices below the counter; ClassifiedUtils.cpp:41-48 (return value discarded) and the two older SoaapPass copies assign the same way |
| Registry.NameRegistry.GetIdx | soaap/Util/ClassifiedUtils.cpp:50-52 | a known name gives its index, which maps back to the name; an unknown name is inserted with index 0 by `operator[]`, and 0 is returned; the SoaapPass sandbox registries look up the same way |
| Registry.NameRegistry.Stringify | soaap/Util/SandboxUtils.cpp:30-46 | "[" + the names of the set bits 0..31 in ascending order, comma-separated + "]"; an index without a name is inserted with "" and printed as ""; the map is unchanged when every set bit has a name; ClassifiedUtils.cpp:12-27 and the two SoaapPass copies print the same way |
| Registry.NameRegistry.NamesOf | soaap/Util/ClassifiedUtils.cpp:29-39 | the same names as the stringifier lists, as a vector, with the same insertions |
| Registry.NamesRoundTrip | soaap/Util/ClassifiedUtils.cpp:29-52 | in a valid registry, when every set bit has been handed out, converting a mask to names and looking the names up again gives back its set bits in ascending order |
| SandboxUtils.SandboxNames | soaap/Util/SandboxUtils.cpp:63-67 | the names of the sandboxes, one per sandbox and in vector order |
| SandboxUtils.FirstNamed | soaap/Util/SandboxUtils.cpp:489-496 | nothing is found exactly when no sandbox has the name; a found sandbox is in the vector and has the name |
| SandboxUtils.FirstWithEntry | SoaapPass/Util/SandboxUtils.cpp:240-248 | nothing is found exactly when no sandbox has that entry point; a found sandbox is in the vector and has it |
| SandboxUtils.FirstNamedIsFirst | soaap/Util/SandboxUtils.cpp:490-493 | of several sandboxes with the same name, the first is found |
| SandboxUtils.FirstWithEntryIsFirst | SoaapPass/Util/SandboxUtils.cpp:241-245 | of several sandboxes with the same entry point, the first is found |
| SandboxUtils.FirstNamedFinds | soaap/Util/SandboxUtils.cpp:489-496 | a sandbox is found by name exactly when the name is among the sandbox names |
| SandboxUtils.GetSandboxWithName | soaap/Util/SandboxUtils.cpp:489-496 | the loop returns the first sandbox with the name, or null |
| SandboxUtils.GetSandboxForEntryPoint | SoaapPass/Util/SandboxUtils.cpp:240-248 | the loop returns the first sandbox with the entry point, or null |
| SandboxUtils.RegisteredSpec | soaap/Util/SandboxUtils.cpp:272-278 | creating names one by one keeps the sandboxes already there in front, makes every listed name present, adds no other name and never a name twice |
| SandboxUtils.CreateEmptySandboxIfNew | soaap/Util/SandboxUtils.cpp:294-301 | when no sandbox has the name, exactly one new persistent region sandbox is appended with the name and the index the registry assigns to it; otherwise nothing changes; registry and vector keep agreeing |
| SandboxUtils.ListEntries | soaap/Util/SandboxUtils.cpp:272-276 | each entry of the list is trimmed of spaces and double quotes, in order; an entry made only of those characters throws |
| SandboxUtils.ListEntriesTrimmed | soaap/Util/SandboxUtils.cpp:272-276 | every trimmed entry is non-empty, neither starts nor ends with a space or quote, and contains no comma |
| SandboxUtils.TrimmedWithin | soaap/Util/SandboxUtils.cpp:274-276 | what trimming keeps is a piece of its input |
| SandboxUtils.CreateListedEntry | soaap/Util/SandboxUtils.cpp:273-277 | one entry of the list is created if new, on top of the entries already handled |
| SandboxUtils.CreateListedSandboxes | soaap/Util/SandboxUtils.cpp:268-279 | the list succeeds exactly when no entry is blank; the sandboxes already there stay in front and the names become those of creating each trimmed entry in turn; registry and vector keep agreeing |
| SandboxUtils.Lookup | soaap/Util/SandboxUtils.cpp:52-54 | the sandbox found for each name, one per name and in order |
| SandboxUtils.ConvertNamesToVector | soaap/Util/SandboxUtils.cpp:48-58 | for each set bit in ascending order, the first sandbox with that bit's name (null when there is none), with the same `operator[]` insertions as the stringifier |
| SandboxUtils.ConvertedCarryBits | soaap/Util/SandboxUtils.cpp:48-58 | when registry and vector agree and every set bit has been handed out, each set bit yields a sandbox holding that bit's index and name, in ascending bit order |
| SandboxUtils.Present | soaap/Util/SandboxUtils.cpp:48-58 | the sandboxes of a vector with no null entry, in order |
| SandboxUtils.StringifySandboxVector | soaap/Util/SandboxUtils.cpp:60-72 | "[" + the sandbox names in vector order, comma-separated + "]" |
| SandboxUtils.ConvertedPrintsAsNames | soaap/Util/SandboxUtils.cpp:30-72 | printing the sandboxes a mask converts to gives the same text as printing the mask's names |
| SandboxUtils.PrefixesExclusive | SoaapPass/Utils/SandboxUtils.cpp:65-80 | no annotation is both persistent and ephemeral |
| SandboxUtils.ClassifyEntry | SoaapPass/Utils/SandboxUtils.cpp:65-83 | a persistent annotation longer than its prefix names its sandbox by the text after the separator; the bare prefix names none; an ephemeral prefix marks an ephemeral sandbox; any other text is not an entry point |
| SandboxUtils.AddEntrySandbox | SoaapPass/Utils/SandboxUtils.cpp:65-83 | a named persistent entry point is registered and appended with its index; an ephemeral one is appended with name "" and index -1 without touching the registry; anything else adds nothing |
| SysCalls.IndexCounter.constructor | soaap/OS/SysCallProvider.cpp:18 | the shared counter starts at 0 |
| SysCalls.SysCallProvider.constructor | soaap/OS/SysCallProvider.cpp:5-23 | a new provider knows no system call and shares the given counter |
| SysCalls.SysCallProvider.GetIdx | soaap/OS/SysCallProvider.cpp:9-11 | a known system call has a non-negative index, which names it again; an unknown one gives -1 |
| SysCalls.SysCallProvider.GetSysCall | soaap/OS/SysCallProvider.cpp:13-15 | an index in use names a known system call; any other index gives "" |
| SysCalls.SysCallProvider.AddSysCall | soaap/OS/SysCallProvider.cpp:17-23 | the name becomes known with the shared counter as its index, in both directions, and the counter moves on; afterwards `getSysCall(getIdx(s)) == s`; adding a name again gives it a fresh index while its old index still maps to it |
| SysCalls.SandboxPlatform.constructor | soaap/OS/Sandbox/SandboxPlatform.cpp:5-22 | a new platform permits nothing |
| SysCalls.SandboxPlatform.DoesSysCallRequireFDRights | soaap/OS/Sandbox/SandboxPlatform.cpp:9-11 | a call that needs descriptor rights is a permitted one |
| SysCalls.SandboxPlatform.DoesProvideProtection | soaap/OS/Sandbox/SandboxPlatform.cpp:13-15 | every platform protects |
| SysCalls.SandboxPlatform.AddPermittedSysCall | soaap/OS/Sandbox/SandboxPlatform.cpp:17-22 | the name becomes permitted, and needs descriptor rights exactly when asked; adding a name again is idempotent; the rights set stays inside the permitted set |
| SysCalls.SandboxPlatform.Capsicum | soaap/OS/Sandbox/Capsicum.cpp:5-19 | after construction exactly Capsicum's whitelist is permitted, and only read and write need descriptor rights |
| SysCalls.CapsicumWhitelistSize | soaap/OS/Sandbox/Capsicum.cpp:6-19 | the whitelist has fourteen distinct system calls |
| SysCalls.CapsicumWhitelistFacts | soaap/OS/Sandbox/Capsicum.cpp:18-24 | read and write are whitelisted, and calls named only in the to-do comments, such as open and openat, are not |
| FPTargets.Targets | soaap/Analysis/InfoFlow/FPTargetsAnalysis.cpp:19-26 | the possible targets, in module order, are no more than the module's functions |
| FPTargets.TargetsMembers | soaap/Analysis/InfoFlow/FPTargetsAnalysis.cpp:19-26 | a name is listed exactly when a function of the module with that name is defined here and has its address taken |
| FPTargets.TargetsDistinct | soaap/Analysis/InfoFlow/FPTargetsAnalysis.cpp:19-26 | with unique names, each target is listed once |
| FPTargets.Positions | soaap/Analysis/InfoFlow/FPTargetsAnalysis.cpp:23 | the index-to-function table maps exactly the positions 0..n-1, each to its target |
| FPTargets.Indices | soaap/Analysis/InfoFlow/FPTargetsAnalysis.cpp:22 | the function-to-index table holds exactly the listed targets |
| FPTargets.IndicesArePositions | soaap/Analysis/InfoFlow/FPTargetsAnalysis.cpp:18-25 | with no target listed twice, each target's index is its position: consecutive indices from 0 |
| FPTargets.TargetsStep | soaap/Analysis/InfoFlow/FPTargetsAnalysis.cpp:20-25 | one more function adds its name exactly when it is defined and address-taken |
| FPTargets.TablesStep | soaap/Analysis/InfoFlow/FPTargetsAnalysis.cpp:22-24 | a new target gets the next index, in both tables |
| FPTargets.Or | soaap/Analysis/InfoFlow/FPTargetsAnalysis.cpp:37 | `to \|= from` has the longer length and exactly the bits of either |
| FPTargets.BuildTables | soaap/Analysis/InfoFlow/FPTargetsAnalysis.cpp:18-26 | the loop enters each target with the next index in both directions |
| FPTargets.FunctionIndex.constructor | soaap/Analysis/InfoFlow/FPTargetsAnalysis.cpp:17 | both tables start empty |
| FPTargets.FunctionIndex.Initialise | soaap/Analysis/InfoFlow/FPTargetsAnalysis.cpp:15-28 | the tables are filled only while the function table is empty, and then hold the targets with consecutive indices from 0 in module order; a second call changes nothing |
| FPTargets.FunctionIndex.SetBitVector | soaap/Analysis/InfoFlow/FPTargetsAnalysis.cpp:68-74 | the function's index (0, inserted, for an unknown function) is set; the vector grows to index + 1 only when it is too short; every other bit is untouched |
| FPTargets.FunctionIndex.ConvertFunctionSetToBitVector | soaap/Analysis/InfoFlow/FPTargetsAnalysis.cpp:60-66 | the set bits are exactly the indices of the given functions, and the vector is no longer than it needs to be |
| FPTargets.FunctionIndex.FuncAt | soaap/Analysis/InfoFlow/FPTargetsAnalysis.cpp:55 | a function found at an index has that index in a valid table |
| FPTargets.FunctionIndex.ConvertBitVectorToFunctionSet | soaap/Analysis/InfoFlow/FPTargetsAnalysis.cpp:50-58 | the function at each set bit, and nothing else |
| FPTargets.TablesValid | soaap/Analysis/InfoFlow/FPTargetsAnalysis.cpp:17-27 | the two tables initialise builds are inverse to each other, with non-negative indices |
| FPTargets.RoundTrip | soaap/Analysis/InfoFlow/FPTargetsAnalysis.cpp:50-66 | with inverse tables and every function indexed, converting a set to a vector and back gives the same set |
| FPTargets.PerformMeet | soaap/Analysis/InfoFlow/FPTargetsAnalysis.cpp:34-43 | `to` becomes the union of the two facts, and the result is true exactly when `from` had a bit `to` lacked |
| Sandboxes.After | soaap/Common/Sandbox.cpp:287 | when the text starts with the prefix and "_", the result is what follows them |
| Sandboxes.StrictKnown | soaap/Common/Sandbox.cpp:418-434 | an accepted list names only functions of the module |
| Sandboxes.StrictClean | soaap/Common/Sandbox.cpp:418-434 | a list with no blank entry and no SOAAP_NO_SYSCALLS_ALLOWED is accepted, and holds exactly its entries that name functions of the module |
| Sandboxes.StrictNoneAllowed | soaap/Common/Sandbox.cpp:424-429 | SOAAP_NO_SYSCALLS_ALLOWED, reached before any blank entry, empties the set whatever came before or after it |
| Sandboxes.StrictBlankThrows | soaap/Common/Sandbox.cpp:418-422 | a blank entry reached before SOAAP_NO_SYSCALLS_ALLOWED makes the trim throw |
| Sandboxes.LenientGrants | soaap/Common/Sandbox.cpp:466-479 | the member list skips blank entries and holds exactly its entries that name functions of the module |
| Sandboxes.MemberListQuoted | soaap/Common/Sandbox.cpp:453-460 | for a member annotation, the list follows the first quoted name, and a different sandbox name finds no list |
| Sandboxes.GrantedBit | soaap/Common/Sandbox.cpp:286-299 | an annotation grants the read bit, the write bit or nothing |
| Sandboxes.PermStepAt | soaap/Common/Sandbox.cpp:284-299 | one annotation ORs its bit into the global's permissions, and creates an entry only when it grants a bit |
| Sandboxes.PermsAreGrantedBits | soaap/Common/Sandbox.cpp:275-301 | the permissions of a global are the OR of the bits all annotations grant it |
| Sandboxes.PermsEntryIff | soaap/Common/Sandbox.cpp:275-301 | a global has an entry exactly when some annotation grants it a bit |
| Sandboxes.OrMask | soaap/Common/Sandbox.cpp:289 | ORing in a read or write bit sets exactly that bit and leaves the other bits alone |
| Sandboxes.GrantedBitsIff | soaap/Common/Sandbox.cpp:275-301 | the read (write) bit is set exactly when some annotation grants read (write) to this sandbox; no other bit is ever set |
| Sandboxes.ReadAllowedIff | soaap/Common/Sandbox.cpp:119-121 | a sandbox may read a global exactly when some VAR_READ annotation naming the sandbox targets it |
| Sandboxes.CallsPassedMembers | soaap/Common/Sandbox.cpp:331-343 | the functions collected from the helper's calls are exactly their arguments after the first |
| Sandboxes.FnCallgatesMembers | soaap/Common/Sandbox.cpp:325-343 | a function contributes callgates only when it is this sandbox's helper, and then all its calls' arguments after the first |
| Sandboxes.CallgateMembers | soaap/Common/Sandbox.cpp:311-348 | a function is a callgate exactly when some helper function of this sandbox passes it |
| Sandboxes.CapabilitiesShape | soaap/Common/Sandbox.cpp:375-493 | an accepted body records lists only for parameters of the entry point and for its own intrinsics, and each list names only functions of the module |
| Sandboxes.CapStepShaped | soaap/Common/Sandbox.cpp:380-485 | one intrinsic keeps that shape |
| Sandboxes.CreationPointsMarked | soaap/Common/Sandbox.cpp:497-522 | the creation points are exactly the annotation calls that mark a persistent or ephemeral creation of this sandbox |
| Sandboxes.CreationNoneKeeps | soaap/Common/Sandbox.cpp:504-519 | with no creation point the sandbox keeps its earlier persistence |
| Sandboxes.CreationLastWins | soaap/Common/Sandbox.cpp:504-519 | the last creation point decides whether the sandbox is persistent |
| Sandboxes.LimitsInside | soaap/Common/Sandbox.cpp:525-584 | when every list is accepted, the limit points are exactly the SOAAP_SYSCALLS calls inside the sandbox, and each has its own accepted list |
| Sandboxes.LimitPointsSnoc | soaap/Common/Sandbox.cpp:534-553 | one more annotation call adds a limit point exactly when it is a SOAAP_SYSCALLS call inside the sandbox |
| Sandboxes.LimitStepCovers | soaap/Common/Sandbox.cpp:534-579 | one more annotation call keeps the limit points covered |
| Sandboxes.CapabilitiesErrStays | soaap/Common/Sandbox.cpp:418-422 | once an intrinsic throws, nothing later in the body undoes the error |
| Sandboxes.LimitsErrStays | soaap/Common/Sandbox.cpp:558-562 | once a limit list throws, nothing later undoes the error |
| Sandboxes.Sandbox.WithEntry | soaap/Common/Sandbox.cpp:23-25 | a sandbox with an entry point keeps its name, index, entry, persistence, overhead and clearances, with nothing derived yet |
| Sandboxes.Sandbox.WithRegion | soaap/Common/Sandbox.cpp:27-29 | a region sandbox has no entry point, no overhead and no clearances |
| Sandboxes.Sandbox.HasCallgate | soaap/Common/Sandbox.cpp:172-174 | the same membership test as isCallgate |
| Sandboxes.Sandbox.AddPermission | soaap/Common/Sandbox.cpp:284-299 | one global annotation updates the permissions as PermStep says |
| Sandboxes.Sandbox.FindSharedGlobalVariables | soaap/Common/Sandbox.cpp:254-303 | the permissions become those of all the global annotations, in order |
| Sandboxes.Sandbox.AppendPassed | soaap/Common/Sandbox.cpp:338-342 | appends the arguments after the first, in order |
| Sandboxes.Sandbox.AddCallgates | soaap/Common/Sandbox.cpp:326-345 | appends what one function contributes |
| Sandboxes.Sandbox.FindCallgates | soaap/Common/Sandbox.cpp:311-348 | appends the callgates of every function of the module, in module order |
| Sandboxes.Sandbox.ParseStrict | soaap/Common/Sandbox.cpp:416-434 | the parameter list, read by getline and trimmed, is the strict list |
| Sandboxes.Sandbox.ParseLenient | soaap/Common/Sandbox.cpp:464-479 | the member list, read by getline and trimmed, is the lenient list |
| Sandboxes.Sandbox.AddCapability | soaap/Common/Sandbox.cpp:380-486 | one intrinsic updates the capabilities as CapStep says, and reports its error |
| Sandboxes.Sandbox.FindCapabilities | soaap/Common/Sandbox.cpp:350-493 | the capabilities become those of the entry point's intrinsics, or the first error |
| Sandboxes.Sandbox.FindCreationPoints | soaap/Common/Sandbox.cpp:495-523 | creation points and persistence become those the annotation calls give |
| Sandboxes.Sandbox.InRegion | soaap/Common/Sandbox.cpp:539-544 | true exactly when the call is one of the region's instructions |
| Sandboxes.Sandbox.FindAllowedSysCalls | soaap/Common/Sandbox.cpp:525-584 | limit points and allowed lists become those the annotation calls give, or the first error |
| Sandboxes.Sandbox.FindDeclared | soaap/Common/Sandbox.cpp:37-39 | on a cleared sandbox: the reached functions, the callgates and the permissions the module declares |
| Sandboxes.Sandbox.Init | soaap/Common/Sandbox.cpp:31-49 | on a blank sandbox, every derived field becomes what InitState computes; capabilities only with an entry point; an error exactly when a list throws |
| Sandboxes.Sandbox.Reinit | soaap/Common/Sandbox.cpp:51-66 | clears every derived field and recomputes it as init does, keeping persistence as the starting point |
| CallGraph.Parameters | scripts/callgraph.py:46 | the parameter slice never contains the ')' it ends before |
| CallGraph.ParametersBetween | scripts/callgraph.py:46 | with '(' before the first ')', the parameters are exactly the text between the first '(' and the first ')' |
| CallGraph.ParametersNeedClose | scripts/callgraph.py:46 | a name without ')' has empty parameters (the slice `[:-1]` of at most one character) |
| CallGraph.BeforeParen | scripts/callgraph.py:47 | `split('(')[0]`: a '('-free prefix of the name, followed by '(' unless it is the whole name |
| CallGraph.LineLength | scripts/callgraph.py:50 | the first line of the text ends at its first line break or at its end |
| CallGraph.DropTemplates | scripts/callgraph.py:50 | removing template arguments never makes the name longer |
| CallGraph.DropTemplatesNoClose | scripts/callgraph.py:50 | text with no '>' is unchanged |
| CallGraph.DropTemplatesNoPair | scripts/callgraph.py:50 | text where no '<' has a '>' after it is unchanged |
| CallGraph.DropTemplatesFromStart | scripts/callgraph.py:50 | a line starting with '<' loses everything up to its last '>' |
| CallGraph.DropTemplatesSpan | scripts/callgraph.py:50 | on one line, everything from the first '<' to the last '>' is removed, greedily, and nothing else |
| CallGraph.DropTemplatesByLine | scripts/callgraph.py:50 | '.' does not match a line break, so each line is rewritten on its own |
| CallGraph.Components | scripts/callgraph.py:52 | `split('::')` always yields at least one component |
| CallGraph.TailStart | scripts/callgraph.py:53-54 | the short name takes the last two components, or all of them when there are fewer |
| CallGraph.JoinAppend | scripts/callgraph.py:53-54 | joining two non-empty lists is joining their joins with the separator between |
| CallGraph.NameRebuilt | scripts/callgraph.py:52-72 | namespace and short name rebuild a name of more than two components; a shorter name is all short name, with an empty namespace |
| CallGraph.MakeFunction | scripts/callgraph.py:42-59 | the constructor succeeds exactly when the name is a string and the location has "file" and "line" (a TypeError on a location that cannot be searched); it then keeps the parameters, the namespace and the short name of the bare name, and the other arguments as given |
| CallGraph.FilenameOfBuilt | scripts/callgraph.py:64-68 | a node built from a dictionary location reports that location's file; one built from a string location passes the constructor and then fails in filename() |
| CallGraph.FqNameOfBuilt | scripts/callgraph.py:70-72 | the fully-qualified name of a node is its bare name when that has a namespace, and "::" followed by it otherwise |
| ChainSimplify.OnlyOne | scripts/callgraph.py:100 | a one-element set holding x is {x} |
| ChainSimplify.Only | scripts/callgraph.py:100-111 | `(x,) = s` unpacks the single element of a one-element set |
| ChainSimplify.PathEdgesCons | scripts/callgraph.py:109-114 | the edges of a path are its first edge and the edges of the rest |
| ChainSimplify.FollowPath | scripts/callgraph.py:105-111 | the inner loop follows call edges through passing nodes (one caller, one callee, root's CVE and cluster) and stops at the first node that does not pass |
| ChainSimplify.FollowEdges | scripts/callgraph.py:105-111 | the inner loop pops exactly the edges along the chain, each of which was present |
| ChainSimplify.FollowAvoids | scripts/callgraph.py:105-111 | a chain cannot pass a node whose edge it has already popped: it fails with KeyError instead |
| ChainSimplify.RootNotPassed | scripts/callgraph.py:99-115 | a chain step that succeeds never passes back through its root |
| ChainSimplify.CollapsedPath | scripts/callgraph.py:99-115 | the chain step in the walk's terms: root, the passed nodes and the end follow call edges; every node but the end has one callee and root's CVE and cluster; the end does not pass |
| ChainSimplify.CollapsedEdges | scripts/callgraph.py:101-115 | root's edge to the chain's end gets the weight of root's first edge; the other edges along the chain are gone; every edge off the chain keeps its weight; no other edge appears |
| ChainSimplify.ChainAbsorbs | scripts/callgraph.py:105-111 | every node a chain passes has one caller, and the node it stops at does not pass, judged from the graph alone |
| ChainSimplify.BranchNotAbsorbed | scripts/callgraph.py:119-121 | a callee of a node with other than one callee is never swallowed by a chain |
| ChainSimplify.WalkedTrans | scripts/callgraph.py:95-121 | two walks in sequence are a walk |
| ChainSimplify.CollapsedWalks | scripts/callgraph.py:96-115 | one chain step from an unvisited root is a walk step |
| ChainSimplify.Walk | scripts/callgraph.py:95-121 | walk(root) marks the root visited, visits no absorbed node, reweights only edges out of visited nodes and leaves the edges out of branching nodes alone |
| ChainSimplify.CollapseChain | scripts/callgraph.py:99-115 | the loop of the chain step computes the chain step |
| ChainSimplify.Simplify | scripts/callgraph.py:91-130 | every function nobody calls ends up visited; the result is a walk from the empty visited set |
| SoaapReport.FirstAcceptable | scripts/soaap.py:39-51 | a result other than the default is the key's value in one of the containers, and not an excluded value |
| SoaapReport.GetFirst | scripts/soaap.py:44-49 | the first dictionary that has the key with a value not excluded gives the answer |
| SoaapReport.GetDefault | scripts/soaap.py:44-51 | dictionaries none of which has the key with an acceptable value give the default |
| SoaapReport.GetOne | scripts/soaap.py:44-51 | `get` over one dictionary: its acceptable value, else the default |
| SoaapReport.GetTwo | scripts/soaap.py:44-51 | `get` over two dictionaries: the first one's acceptable value, else the second one's, else the default |
| SoaapReport.Get | scripts/soaap.py:39-51 | the search loop computes FirstAcceptable |
| SoaapReport.AnalysisNamed | scripts/soaap.py:54-86 | only "private_access" and "vulnerability_warning" name an analysis; any other name is a KeyError |
| SoaapReport.AsDict | scripts/soaap.py:57-74 | the details seen as a dictionary carry their sandbox under "sandbox" |
| SoaapReport.NamesOf | scripts/soaap.py:59-62 | `[s['name'] for s in xs]` succeeds exactly when every entry is a dictionary with "name", and lists those names in order |
| SoaapReport.Names | scripts/soaap.py:59-62 | over a list, the names of its entries |
| SoaapReport.PrivateDetails | scripts/soaap.py:57-65 | the owners of a warning are the names under its sandbox_private; the sandbox is the first name under sandbox_access, else the previous element's sandbox ("none" counting as missing) |
| SoaapReport.VulnerabilityDetails | scripts/soaap.py:70-73 | vulnerability details carry a cve and a sandbox |
| SoaapReport.VulnerabilityOfDict | scripts/soaap.py:70-73 | for a dictionary the details always exist: the element's cve or None; its sandbox, else the previous element's, else None, "none" counting as missing |
| SoaapReport.DetailsOf | scripts/soaap.py:86-102 | each analysis builds its own kind of details |
| SoaapReport.KeyOf | scripts/soaap.py:56-93 | a key is (function, sandbox); hashing fails on a list or dictionary; the private-access key reads the sandbox back through `get`, so "none" becomes None |
| SoaapReport.NewRecord | scripts/soaap.py:97-113 | a new node carries the details' sandbox and the given location, with the cve or the owners of its analysis |
| SoaapReport.ExtendsTrans | scripts/soaap.py:83-121 | extending a graph twice extends it |
| SoaapReport.AddNode | scripts/soaap.py:96-113 | a new key gets a node with no edges; every other node and every count is unchanged |
| SoaapReport.Link | scripts/soaap.py:115-117 | the caller gains the callee, the callee gains the caller, the pair is counted once more, nothing else changes |
| SoaapReport.AddNodeLinked | scripts/soaap.py:97-109 | adding a node keeps the graph well linked |
| SoaapReport.LinkLinked | scripts/soaap.py:115-117 | linking keeps the graph well linked |
| SoaapReport.LinkClosed | scripts/soaap.py:115-117 | linking two nodes keeps every edge between nodes |
| SoaapReport.LinkMirrored | scripts/soaap.py:115-116 | linking keeps callers and callees mirror images |
| SoaapReport.LinkCounted | scripts/soaap.py:115-117 | after linking, the counted pairs are still exactly the edges |
| SoaapReport.Step | scripts/soaap.py:101-119 | one trace element: its node, new or found by key, becomes a caller of the previous node, and that call is counted once more; the other nodes keep their records |
| SoaapReport.WarningNode | scripts/soaap.py:96-98 | a warning with a new key gets a node |
| SoaapReport.AddTrace | scripts/soaap.py:101-119 | the loop over a trace computes Trace |
| SoaapReport.ParseReport | scripts/soaap.py:78-121 | the loop over the warnings computes Parse |
| SoaapReport.TraceKeys | scripts/soaap.py:101-103 | one key per trace element |
| SoaapReport.Pairs | scripts/soaap.py:117 | a chain of n keys makes n - 1 calls |
| SoaapReport.KeySet | scripts/soaap.py:105-113 | the keys a chain mentions |
| SoaapReport.KeySetCons | scripts/soaap.py:105-113 | the keys of a chain are its first key and the keys of the rest |
| SoaapReport.TraceCalls | scripts/soaap.py:101-119 | a trace adds exactly one call per element, from each element to the one before it (the warning's node for the first) |
| SoaapReport.TraceNodes | scripts/soaap.py:101-113 | a trace adds exactly the nodes of the keys it mentions |
| SoaapReport.TraceExtends | scripts/soaap.py:105-113 | the nodes already there keep their records through a trace |
| SoaapReport.TraceLinked | scripts/soaap.py:101-119 | a trace keeps the graph well linked |
| SoaapReport.WarningLinked | scripts/soaap.py:88-119 | one warning keeps the graph well linked |
| SoaapReport.WarningExtends | scripts/soaap.py:88-119 | one warning keeps the nodes already there with their records |
| SoaapReport.WarningsLinked | scripts/soaap.py:88-119 | all the warnings keep the graph well linked and extend it |
| SoaapReport.AsCallGraph | scripts/soaap.py:121 | the simplifier's view has the same nodes |
| SoaapReport.Weights | scripts/soaap.py:84-121 | every weighted pair has a positive count |
| SoaapReport.ParsedSimplifiable | scripts/soaap.py:115-121 | what parse returns satisfies what simplify needs: callers and callees are nodes, every edge is seen from both ends, and the weighted pairs are exactly the edges |
| SoaapReport.DefaultAnalysisRejected | scripts/soaap.py:78-86 | parse with its default analysis fails with KeyError on every report |
| SoaapReport.DefaultAnalysisAccepted | scripts/soaap.py:68-88 | "vulnerability_warning" names the vulnerability analysis, and a report with no warnings parses to the empty graph |
| SoaapReport.ParseDefault | scripts/soaap.py:78-121 | parse with the intended default analysis |
| JsonValues.Field | scripts/soaap.py:46-103 | `j[k]` succeeds exactly on a dictionary that has the key and returns its value; a missing key is a KeyError and anything else a TypeError |
| JsonValues.HasField | scripts/soaap.py:45-111 | `k in j`: key membership for a dictionary, item membership for a list, an error only for values that cannot be searched |
| JsonValues.Items | scripts/soaap.py:88-101 | iterating succeeds exactly on a list (its items) or an empty string or dictionary (nothing) |

## Behaviour the code does not have

The model follows the code in each of these cases:

- `correspondingBitcodeName` (scripts/generate-ir/commandwrapper.py:94-98) has a rule only for ".so." names. There is no ".a." rule, so `foo.a.1.2.3` simply becomes `foo.a.1.2.3.bc`.
- `CommandWrapper.run` (scripts/generate-ir/commandwrapper.py:132-150) has one bypass, NO_EMIT_LLVM_IR. There is no version/help-query bypass.
- The wrapper code reads no SKIP_MISSING_LINKER_INPUT or INSTALL_BITCODE variable. A link input without bitcode is only warned about by `findBitcodeFiles` (scripts/generate-ir/linkerwrapper.py:157-192), and the link fails only when no bitcode is found at all.
- Several wrapper tests expect behaviour the code does not have, so no member states them:
  - `-libmd` in the archiver's IR command (scripts/generate-ir/test/test-ar.py:72-78);
  - rewriting a `.so` path to `-l<name>` and rejecting non-`lib` `.so` files (scripts/generate-ir/test/test-linker.py:54-55,129-151);
  - the IR argument order (scripts/generate-ir/test/test-compiler.py:76-82);
  - versioned `.a.` names (scripts/generate-ir/test/test-unixcommands.py:71-76,88-93 and scripts/generate-ir/test/test-coreutils.py:55-60,72-77).

## Findings

| source | as written | input that shows it | evidently intended | confidence | as-written member | corrected member |
|---|---|---|---|---|---|---|
| scripts/generate-ir/llvm-ir-wrapper.py:50-51 | `executable == ('g++', 'c++')` compares a string with a tuple, so it is never true | argv[0] = "g++" with "-c": no branch matches it, and the script raises RuntimeError | `executable in ('g++', 'c++')`: g++ and c++ are handled as clang++ | high; not executed | Dispatch.GxxRejectedAsWritten | Dispatch.GxxIsClangxx, Dispatch.GxxCompiles |
| scripts/generate-ir/unixcommandswrapper.py:26 | `self.mode = Mode.coreutils`, here and at coreutilswrapper.py:25, while the Mode enumeration (commandwrapper.py:101-107) has no `coreutils` member | argv ["mv", "libfoo.so", "d/"] with mv resolvable: building the MvWrapper raises AttributeError after the base constructor, so neither NO_EMIT_LLVM_IR nor the IR command is reached | Mode declares a `coreutils` member, and the cp, mv and ln wrappers are built in that mode | high; not executed | CommandWrapper.CreateAsWritten, CommandWrapper.MvWrapperRaisesAsWritten | CommandWrapper.Create, CommandWrapper.InitialMode |
| scripts/soaap.py:78-86 | `parse`'s default analysis is 'vulnerabilities', which is not a key of `analyses` | `parse(report)` with no analysis argument raises KeyError, whatever the report holds | the default names the vulnerability analysis, 'vulnerability_warning' | high; not executed | SoaapReport.DefaultAnalysisRejected | SoaapReport.DefaultAnalysisAccepted, SoaapReport.ParseDefault |

## Left out

- I/O and the operating system are parameters, not effects:
  - `subprocess.check_call` and `os.execv` become an action trace with a success oracle;
  - `os.path.exists` becomes a set of present paths;
  - the `file` command's output becomes a function from path to one line;
  - PATH lookup (`findExe`) and `soaapLlvmBinary` become given strings;
  - environment variables become booleans;
  - the temporary file of the archiver wrapper becomes a given name.
- Coloured terminal output and diagnostic printing are left out, including the `outs()` lines of the member annotation branch of `Sandbox::findCapabilities`.
- The licence headers of scripts/generate-ir/llvm-ir-wrapper.py:3-34, scripts/callgraph.py:1-32 and scripts/soaap.py:1-32 are C-style `/* … */` blocks, which Python rejects with a SyntaxError before anything runs. The model treats them as comments.
- CompilerWrapper.ComputeWrapperCommand: looks up the option table once before the loop, where the source looks it up per option. The cache is filled on the first lookup, so the two are indistinguishable.
- The musl example of `testMuslLibcASM`, which evaluates a long literal ReplaceAll, is left out because its concrete evaluation is too costly to check. CompileExample covers the first case of `testBasic` in the source's argument order.
- `InstallWrapper`, `CpWrapper` (as imported from coreutilswrapper) and `CommandWrapperError` are referenced by the entry scripts and wrappers, but commandwrapper.py and coreutilswrapper.py do not define them.
  - The model reports the undefined wrappers as a NameError.
  - `isLibrary` is an uninterpreted predicate.
  - mv-and-emit-llvm-ir.py:6 imports `CommandWrapperError`, so that script would fail on import; the model dispatches as if the import succeeded.
- The walks over LLVM IR are outside this model. The functions reached from a sandbox, the module's annotations and its defined names are all given as data. This covers:
  - `findSandboxedFunctions`, `findSandboxedCalls` and `findPrivateData`;
  - `validateCreationPoints`;
  - `FPTargetsAnalysis::getTargets` and `stateChangedForFunctionPointer`;
  - the call-graph construction.
- The other callers of `createEmptySandboxIfNew` in soaap/Util/SandboxUtils.cpp are left out, apart from the sandbox-list parser. They sit inside LLVM walks.
- SeccompBPF is left out: it reads a policy file.
- FPTargets.PerformMeet: BitVector `!=` is compared by the set of set bits. LLVM 3.x's comparison ignores trailing zero words, so vectors that differ only in length compare equal.
- FPTargets.FunctionIndex.ConvertBitVectorToFunctionSet: `idxToFunc[idx]` inserts a null entry for an unknown index in the source. The model reads the table without inserting; an unknown index yields `None`, the null function the source adds to the set.
- Function objects of scripts/callgraph.py and scripts/soaap.py are identified by their key, not by object identity. This matches soaap.py, which makes one object per key, but aliasing is not modelled.
- `name()`, `label()`, `namespace()`, `sandbox()` and `__str__` of scripts/callgraph.py are plain accessors or formatting and are left out. So is the unused `dropped` set of `simplify`.
- Decoded JSON has integers only: floats are left out. Python's `1 == True` is not modelled, and `exclude` is compared with structural equality.
- A location that is neither a dictionary nor a string is handled only as far as `in` on it fails. A private-access owner tuple is modelled as a list.
- ChainSimplify.Walk: states what a walk may do (`Walked`) and that the root ends up visited, not the exact weights it leaves.
- ChainSimplify.Simplify: states that every function nobody calls ends up visited and that every weight change is one a walk may make. It does not state the exact result.
- `simplify` iterates `functions` in set order. The model iterates the graph's nodes in an unspecified order, which Dafny's set iteration gives.
- Performance-measurement and valgrind helpers (soaap_perf.c, soaap_valgrind.c) are left out: they fork, use sockets and the clock, and compute floating-point overheads.
