# bpb: a verified model of the pipeline compiler

bpb compiles a list of *processor* configurations (date, grok, split, kv,
convert, user_agent, gsub, json, geoip, rename, remove, script, ruby, select)
into two targets:

- an Elasticsearch Ingest pipeline: a flat list of processor steps plus a
  default `on_failure` handler;
- a Logstash `filter { … }` program. Each processor becomes a *unit*: a
  block of filters and the failure tags it may set. The units are linked
  bottom-up with conditionals that clear the tags and run an error handler.
  The program is then printed by an indentation-tracking writer.

This project models that compiler in Dafny and proves what each part
promises. It has four parts.

1. The Logstash AST and its printer.
   - `LsAst` (ls_ast.dfy): the AST and the parameter builders.
   - `LsRender` (ls_render.dfy): the printer described as a pure
     interpretation of printing actions.
   - `LsFormat` (ls_format.dfy): the imperative printer. It has classes
     `Sink`, `FormatCtx` and `ParamPrinter` and the `BoolStack` value. Each
     method is proved to perform exactly the actions `LsRender` describes.
2. Failure-tag propagation and linking.
   - `GenLs` (gen_ls.dfy): the tag counter, the `FilterBlock` operations,
     the guard expressions, the error handlers, and the bottom-up link as a
     right fold.
   - `Generator` (generator.dfy): the array-and-loop compiler. It is proved
     against the functions in `Processors`.
3. The registry and the driver.
   - `Registry` (registry.dfy): a class over the name-to-factory map, with
     the loaders.
   - `Driver` (driver.dfy): `New`, the Ingest pipeline and the printed
     Logstash program.
   - `Ingest` (ingest.dfy): the Ingest step constructors.
4. The per-processor compilers. There is one module per processor package,
   from `DateProc` to `RubyProc`. `Processors` (processors.dfy) is the
   tagged union behind the `Processor` interface. It also holds the pure
   description of compiling a list for each target.

Shared helpers:

- `Strs`: the Go string functions the core uses, modelled with their
  round-trip properties.
- `Values`: the parameter value tree.
- `Threading` (threading.dfy): the two loop shapes of the core, stated
  once for any step: a map that stops at the first error (the loaders) and
  a run that also threads the tag counter (the Logstash units). Their
  each-element and first-error lemmas are proved there and carried over to
  `LoadAllSpec` and `CompileUnits` by one bridge lemma each.
- `Records` and `Wrappers`.

## Model

| member | source | states |
|---|---|---|
| Strs.IndexOf | prog/ls/format.go:74 | the index of the first occurrence of the character, or -1 exactly when it does not occur |
| Strs.Split | prog/ls/ls.go:25 | at least one piece, and no piece contains the separator |
| Strs.Join | prog/ls/ls.go:29 | joining a single piece gives that piece |
| Strs.JoinSplit | prog/ls/ls.go:25-29 | joining the pieces of a split with the separator gives the string back |
| Strs.SplitJoin | prog/ls/ls.go:25-29 | splitting a join of separator-free pieces gives the pieces back |
| Strs.SplitAround | prog/ls/ls.go:25 | splitting `a + c + b` on `c` splits `a` and `b` separately |
| Strs.ReplaceChar | generator/ruby/ruby.go:41 | no occurrence is left when the replacement has none; text without the character is unchanged |
| Strs.NatToString | generator/ls.go:27 | decimal digits only, with no leading zero |
| Strs.ParseNatToString | generator/ls.go:27 | the decimal rendering of a counter parses back to it |
| Strs.NatToStringInjective | generator/ls.go:27 | distinct counters render differently |
| Strs.IntToString | prog/ls/format.go:212-214 | an integer renders as its magnitude's digits, with `-` when negative |
| Strs.Quote | prog/ls/format.go:192-194 | a quoted string starts and ends with a double quote |
| Strs.EscapeChar | prog/ls/format.go:192-194 | a character is kept as it is exactly when it is printable and neither `"` nor `\`; otherwise a short escape, `\xHH` for control characters, `\uHHHH` or `\UHHHHHHHH` for other non-printable ones; never a bare `"` |
| Strs.QuotePrintable | prog/ls/format.go:192-194 | text of printable characters other than `"` and `\` is quoted as it is |
| Strs.UnquoteQuote | prog/ls/format.go:192-194 | unquoting a quoted string gives it back |
| Strs.QuoteInjective | prog/ls/format.go:162-166 | distinct strings quote differently |
| Values.StrList | prog/ls/filter.go:62 | a string list becomes an array of the same length holding each string in order |
| Values.StrMap | generator/grok/grok.go:59-61 | a string map becomes an object with the same keys and each value as a string |
| Values.SetIfNonEmpty | generator/geoip/geoip.go:38-40 | the key is set exactly when the string is non-empty; every other key is unchanged |
| Values.SetIfTrue | generator/grok/grok.go:62-64 | the key is set to `true` exactly when the flag is set; every other key is unchanged |
| Records.OnlyKey | generator/kv/kv.go:107 | the key of a one-key map is in it and is its only key |
| Ingest.MakeProcessor | prog/ingest/ingest.go:16-18 | a single-key step mapping the name to the parameters |
| Ingest.Single | prog/ingest/ingest.go:20-22 | a one-element list holding the step |
| Ingest.MakeSingleProcessor | prog/ingest/ingest.go:24-26 | one step whose only key is the name, mapped to the parameters |
| Ingest.RemoveField | prog/ingest/ingest.go:34-38 | a `remove` step whose only parameter is `field` set to the name |
| Ingest.WithDrop | generator/date/date.go:79-82 | the steps are kept as a prefix, and one `remove` of the field follows exactly when dropping |
| LsAst.MakeVerboseBlock | prog/ls/filter.go:37-43 | the statements unchanged, followed by one debug print of the name exactly when verbose |
| LsAst.MakePrintEventDebug | prog/ls/ls.go:32-37 | a `ruby` filter with `init` and `code`, whose code prints the name and the event |
| LsAst.Target | prog/ls/filter.go:49-53 | `target` is the normalized field when the field is non-empty; otherwise nothing changes; no other key changes |
| LsAst.DropField | prog/ls/filter.go:55-59 | removes the field exactly when dropping, and leaves the parameters unchanged otherwise |
| LsAst.RemoveField | prog/ls/filter.go:61-63 | `remove_field` is the one-element list of the normalized name; no other key changes |
| LsAst.IgnoreMissing | prog/ls/ls.go:15-22 | one conditional, with one case guarded by the normalized field whose body is the block, and no else |
| LsAst.RunWithTags | prog/ls/ls.go:39-44 | two statements: a `mutate add_tag` of the tags, then the block nested as one statement |
| LsAst.GuardedBlock | prog/ls/ls.go:52-66 | without an id, the block itself; with an id, one conditional on `[@metadate][pipeline] == "<id>"` whose body starts with the mutate removing that field, followed by the block; a well-formed block stays well formed |
| LsAst.Bracketed | prog/ls/ls.go:26-28 | every segment wrapped in brackets, in order |
| LsAst.NormalizeField | prog/ls/ls.go:24-30 | the loop that rewrites the segments in place computes the normalized field |
| LsAst.NormalizedPlainField | prog/ls/ls.go:24-30 | a field without dots becomes `[field]` |
| LsAst.NormalizedDotted | prog/ls/ls.go:24-30 | normalizing `a.b` concatenates the normalized `a` and `b` |
| LsAst.NormalizedFieldRoundTrip | prog/ls/ls.go:24-30 | the dotted field is recovered from its normalized form, so normalization is injective |
| LsAst.ConditionalWellFormed | prog/ls/filter.go:74-76 | a conditional with at least one case over well-formed blocks is printable |
| LsAst.VerboseWellFormed | prog/ls/filter.go:37-43 | adding the debug print keeps a block printable |
| LsRender.Trunc | prog/ls/format.go:103-111 | what a writer with room for `cap` characters keeps: a prefix of the text, of length at most `cap` |
| LsRender.RunAppend | prog/ls/filter.go:65-72 | running two lists of actions one after the other is running their concatenation |
| LsRender.LayoutNoNewline | prog/ls/format.go:75-80 | a chunk without newline is written with the indent only when one is pending, and clears it |
| LsRender.LayoutLine | prog/ls/format.go:83-90 | `Write` cutting the text at a newline agrees with the per-character layout: the line, then the rest with an indent pending |
| LsRender.LayoutAppend | prog/ls/format.go:68-94 | writing `a + b` is writing `a` and then `b` from the flag `a` leaves |
| LsRender.ValueOpsBalanced | prog/ls/format.go:135-145 | printing any parameter value returns to the indentation it started at (enter and exit are balanced) |
| LsRender.StmtOpsBalanced | prog/ls/filter.go:74-101 | printing any statement returns to the indentation it started at |
| LsRender.BlockOpsBalanced | prog/ls/format.go:34-39 | printing any block returns to the indentation it started at |
| LsRender.BlockPrefix | prog/ls/filter.go:65-72 | the actions of the first `j` statements are a prefix of the actions of the block |
| LsRender.CommentOpsText | prog/ls/ls.go:68-72 | the comment lines are written as `# line` each, at depth 0 |
| LsRender.DescriptionOpsText | prog/ls/ls.go:68-72 | the description produces its comment lines only when it is non-empty |
| LsRender.FilterSection | prog/ls/ls.go:74-76 | `filter {`, then the body printed one level deeper, then `}` |
| LsRender.SerializeShape | prog/ls/ls.go:46-77 | the program text is the description comments, `filter {\n`, the guarded block at depth 1, and `}\n` |
| LsRender.KeyPrintedOnce | prog/ls/format.go:162-167 | under a valid visiting order every key of an object is visited at exactly one position, and the object prints as the members before it, its own member, then the members after it |
| LsRender.VisitedKeys | prog/ls/format.go:162-167 | under a valid visiting order an object prints one member per key, and every printed key is one of its keys |
| LsFormat.Sink.WriteString | prog/ls/format.go:105 | appends a prefix of the string and keeps at most `capacity` characters; succeeds exactly when all of it fits |
| LsFormat.FormatCtx.constructor | prog/ls/ls.go:47-50 | a fresh printer with empty output, no pending indent and no error |
| LsFormat.FormatCtx.DoWriteRaw | prog/ls/format.go:103-113 | writes the whole string to the sink; a short write sets the sticky error |
| LsFormat.FormatCtx.DoWriteString | prog/ls/format.go:96-101 | the pending indent goes before the chunk unless the chunk is a bare newline |
| LsFormat.FormatCtx.Write | prog/ls/format.go:68-94 | performs exactly the `Write` action: nothing after an error, otherwise line by line with lazy indentation |
| LsFormat.FormatCtx.WriteLast | prog/ls/format.go:75-80 | the last piece without newline is laid out and clears the pending indent |
| LsFormat.FormatCtx.WriteLine | prog/ls/format.go:83-90 | one line is written and leaves an indent pending; on error the output stays a prefix of the intended text |
| LsFormat.FormatCtx.IncreaseIndent | prog/ls/format.go:41-43 | one more indentation level |
| LsFormat.FormatCtx.DecreaseIndent | prog/ls/format.go:45-50 | one level less, and no change at level 0 |
| LsFormat.BoolStack.Push | prog/ls/format.go:259-262 | the pushed value becomes current and the stack grows by one |
| LsFormat.BoolStack.Pop | prog/ls/format.go:264-272 | pushing the popped current value back gives the stack before the pop |
| LsFormat.PushPop | prog/ls/format.go:259-272 | push followed by pop restores both the current value and the stack |
| LsFormat.ParamPrinter.constructor | prog/ls/format.go:115-120 | both stacks start empty with `false` current |
| LsFormat.ParamPrinter.TryElemNext | prog/ls/format.go:122-133 | writes `,\n` only inside an array before a non-first element; the first element clears the flag |
| LsFormat.ParamPrinter.Enter | prog/ls/format.go:135-139 | pushes `true` on `first` and the kind on `inArray`, and indents one level |
| LsFormat.ParamPrinter.Exit | prog/ls/format.go:141-145 | pops both stacks and dedents one level |
| LsFormat.ParamPrinter.OnObjectStart | prog/ls/format.go:147-155 | separator, `{`, one level deeper, and an object entered |
| LsFormat.ParamPrinter.OnObjectFinished | prog/ls/format.go:157-160 | one level back, both stacks popped, then `\n}\n` |
| LsFormat.ParamPrinter.OnKey | prog/ls/format.go:162-167 | the key is quoted below the top level or when it is bracketed, then followed by ` => ` |
| LsFormat.ParamPrinter.OnArrayStart | prog/ls/format.go:169-177 | separator, `[\n`, one level deeper, and an array entered |
| LsFormat.ParamPrinter.OnArrayFinished | prog/ls/format.go:179-182 | one level back, both stacks popped, then `\n]` |
| LsFormat.ParamPrinter.OnValue | prog/ls/format.go:184-253 | separator, then the scalar: nil as `""`, strings quoted, booleans and integers as text |
| LsFormat.ParamPrinter.Fold | prog/ls/filter.go:100 | folding a value performs exactly the printing actions of that value |
| LsFormat.ParamPrinter.FoldObject | prog/ls/format.go:147-167 | an object prints as its members between the object callbacks, and restores the stacks |
| LsFormat.ParamPrinter.FoldMembers | prog/ls/format.go:162-167 | the members print in the visiting order |
| LsFormat.ParamPrinter.FoldMember | prog/ls/format.go:162-167 | one member prints as its key followed by its value |
| LsFormat.ParamPrinter.FoldArray | prog/ls/format.go:169-182 | an array prints as its elements between the array callbacks, and restores the stacks |
| LsFormat.ParamPrinter.FoldElements | prog/ls/format.go:122-133 | the elements print in order, separated by `,\n` |
| LsFormat.FormatFilter | prog/ls/filter.go:94-101 | `name {}` without parameters, else the name and the parameter object |
| LsFormat.FormatBlock | prog/ls/filter.go:65-72 | the statements in order; the error is sticky, so printing stops at the first failure |
| LsFormat.FormatBlockIndented | prog/ls/format.go:34-39 | the block one level deeper, with the indentation restored afterwards, error or not |
| LsFormat.FormatStatement | prog/ls/filter.go:65-101 | each kind of statement prints as its own `format` method does |
| LsFormat.FormatConditional | prog/ls/filter.go:74-92 | `if`, then `} elif` per later case, then `} else {` only for a non-empty else, then `}` |
| LsFormat.FormatElifs | prog/ls/filter.go:81-84 | each later case prints as an `elif` arm with its body one level deeper |
| LsFormat.WriteDescription | prog/ls/ls.go:68-72 | one `# ` comment line per description line, only for a non-empty description |
| LsFormat.Serialize | prog/ls/ls.go:46-77 | for a valid visiting order of object keys, the writer receives the program text, cut at its capacity; success exactly when the whole text fits |
| GenLs.LogstashCtx.constructor | generator/ls.go:10-15 | the flags as given, and a counter at zero |
| GenLs.LogstashCtx.CreateTag | generator/ls.go:22-28 | the counter grows by one and the tag is the name, `_`, and the new count |
| GenLs.TagBase | generator/ls.go:24-26 | an empty name becomes the default tag name; any other is kept |
| GenLs.MintTag | generator/ls.go:27 | the tag starts with the name followed by `_` and at least one more character |
| GenLs.MintTagDistinct | generator/ls.go:22-28 | tags minted at different counts differ, whatever the names |
| GenLs.OptionalTag | generator/date/date.go:87-90 | no tag and no count when failures are ignored; otherwise one minted tag at the next count |
| GenLs.AddUniqueProperties | generator/ls.go:39-51 | the old tags are kept as a prefix, the result holds exactly the old and the new tags, and a duplicate-free list stays duplicate-free |
| GenLs.AddTags | generator/ls.go:39-51 | the nested loops add each tag not yet present, in order |
| GenLs.AppendBlock | generator/ls.go:35-37 | the block is extended by the statements; the tags are unchanged |
| GenLs.AddFilter | generator/ls.go:53-55 | the block is extended by one filter; the tags are unchanged |
| GenLs.Append | generator/ls.go:30-33 | the blocks are concatenated and the tags merged without duplicates, keeping the first unit's tags first |
| GenLs.NonEmptyTags | generator/ls.go:74-83 | no empty tag is left and every other tag is kept |
| GenLs.NonEmptyTagsKeeps | generator/ls.go:74-83 | a list without empty tags is kept as it is, in order |
| GenLs.FailTagsCondition | generator/ls.go:138-149 | the guard is empty exactly when there are no tags |
| GenLs.FailTagsConditionRoundTrip | generator/ls.go:138-149 | the tags are read back from the guard, one `("t" in [tags])` test per tag, in order |
| GenLs.MakeRuby | generator/ls.go:152-170 | an `add_tag` mutate only for a non-empty tag, then a `ruby` filter whose parameters are `code` and the extras, the extras overriding |
| GenLs.ReportError | generator/ls.go:172-180 | one `ruby` filter with only `code`, and no failure tags |
| GenLs.OnError | generator/sel/select.go:53-62 | the reporter's block, or for `select` one `add_tag` of the select tag, which it reports as its only tag |
| GenLs.FailureHandler | generator/ls.go:92-114 | no case when errors are disabled or there are no tags; otherwise one case on the guard whose body removes the tags and runs the handler |
| GenLs.Handlers | generator/ls.go:89-115 | one handler conditional per unit, in order |
| GenLs.LinkUnguarded | generator/ls.go:117-130 | with no guarded unit, linking concatenates the unit blocks in order |
| GenLs.DisabledErrors | generator/ls.go:89-91 | with errors disabled, the result is the unit blocks in order and has no failure tags |
| GenLs.ReporterTags | generator/ls.go:172-180 | under the top-level reporter, the result has no failure tags |
| GenLs.SelectTags | generator/sel/select.go:51-63 | under the select handler, the only tag reported is the select tag, and it is reported exactly when errors are enabled and some unit can fail |
| GenLs.SelectTagsOnly | generator/ls.go:99 | the select handler reports no tag but its own |
| GenLs.SelectTagsNonEmpty | generator/ls.go:91-99 | the select tag is reported exactly when errors are enabled and some unit has tags |
| GenLs.LinkWellFormed | generator/ls.go:117-130 | linking printable units gives a printable block |
| GenLs.HandlerWellFormed | generator/ls.go:101-113 | every handler body is printable |
| DateProc.Validate | generator/date/date.go:121-127 | an error exactly when both `format` and `formats` are set |
| DateProc.Make | generator/date/date.go:37-57 | a missing field or both format options are errors; a single `format` becomes the formats list; the other options are copied |
| DateProc.IngestParams | generator/date/date.go:62-77 | `field` and `formats` always; `target_field`, `timezone` and `locale` only when set; `ignore_failure` only when true; nothing else |
| DateProc.CompileIngest | generator/date/date.go:61-84 | the `date` step, then a `remove` of the field exactly when dropping |
| DateProc.FieldParams | generator/date/date.go:92-100 | `match` is the normalized field followed by the formats; `tag_on_failure` only for a tag; `target` and `remove_field` only when set |
| DateProc.LogstashParams | generator/date/date.go:92-107 | the field parameters plus `timezone` and `locale` when set, and nothing else |
| DateProc.LogstashBlock | generator/date/date.go:109-114 | one `date` filter (plus the debug print when verbose) reporting the one tag |
| DateProc.Logstash | generator/date/date.go:86-115 | a `_failure_date` tag is minted and used only when failures are not ignored; the failure tags are always that one (possibly empty) tag |
| DateProc.CompileLogstash | generator/date/date.go:86-115 | the unit and the new counter are those of the pure compilation |
| SplitProc.Validate | generator/split/split.go:119-129 | accepted exactly when one of separator and regex is set |
| SplitProc.Make | generator/split/split.go:31-38 | a missing field or a failed check is an error; otherwise the options as given |
| SplitProc.IngestStep | generator/split/split.go:40-78 | with a regex, a `split` step on it with `target_field` only when set; otherwise a Painless script splitting into the target, which defaults to the field |
| SplitProc.CompileIngest | generator/split/split.go:40-53 | the split step, then a `remove` of the field exactly when dropping |
| SplitProc.LogstashFilter | generator/split/split.go:80-113 | with a regex, a `ruby` filter over the normalized and quoted fields; otherwise a `split` filter with `terminator` and `target` only when set; `remove_field` exactly when dropping |
| SplitProc.CompileLogstash | generator/split/split.go:80-90 | that one filter, with no failure tag |
| GrokProc.Validate | generator/grok/grok.go:103-113 | accepted exactly when the field is set and not both `pattern` and `patterns` |
| GrokProc.Make | generator/grok/grok.go:34-52 | a single `pattern` becomes the patterns list; the other options are copied; failed checks are errors |
| GrokProc.IngestParams | generator/grok/grok.go:55-64 | `field` and `patterns` always; `pattern_definitions` only when non-empty; `ignore_missing` only when true |
| GrokProc.CompileIngest | generator/grok/grok.go:54-71 | the `grok` step, then a `remove` of the field exactly when dropping |
| GrokProc.LogstashParams | generator/grok/grok.go:74-83 | `match` maps the normalized field to the patterns; definitions and `remove_field` only when set |
| GrokProc.CompileLogstash | generator/grok/grok.go:73-97 | `grok` then `de_dot`, wrapped in a conditional on the field when missing fields are ignored, plus the debug print when verbose; no tags |
| GrokProc.LogstashWellFormed | generator/grok/grok.go:85-96 | the grok unit is printable |
| KvProc.UnpackSplit | generator/kv/kv.go:94-124 | zero or several options are errors with their messages; only `class` and `regex` are modes, and any other is named in the error |
| KvProc.IngestPattern | generator/kv/kv.go:126-135 | class gives `[p]+`, regex gives `p`, and no mode is an error |
| KvProc.Make | generator/kv/kv.go:44-51 | field and target are required; an option that does not unpack fails with its error; a loaded processor is exactly the configuration with both split options unpacked, and no value split when none is given |
| KvProc.CompileIngest | generator/kv/kv.go:57-84 | pattern errors are suffixed `on field` or `on value`; otherwise one `kv` step with the fixed keys always and the optional ones only when set |
| ConvertProc.TypeName | generator/convert/convert.go:93-100 | the name is empty exactly for the invalid type |
| ConvertProc.GetConvType | generator/convert/convert.go:102-110 | valid exactly for the five names, `int` and `integer` both giving the integer type |
| ConvertProc.GetConvTypeName | generator/convert/convert.go:93-110 | looking up the name of a valid type gives the type back |
| ConvertProc.UnpackConvType | generator/convert/convert.go:83-91 | unknown names are rejected with `type '<n>' not supported` |
| ConvertProc.Make | generator/convert/convert.go:40-47 | field and type are required, an unknown type fails with `type '<name>' not supported`, `ignore_missing` defaults to true, and a loaded processor keeps the field, target, `ignore_failure` and `drop_field` as given |
| ConvertProc.IngestParams | generator/convert/convert.go:52-64 | `field` and `type` always; `target_field` only when set; the ignore flags only when true |
| ConvertProc.CompileIngest | generator/convert/convert.go:51-71 | the `convert` step, then a `remove` of the field exactly when dropping |
| UserAgentProc.Make | generator/useragent/useragent.go:26-33 | the field is required |
| UserAgentProc.IngestParams | generator/useragent/useragent.go:38-46 | `field` always; `target_field` only when set; `ignore_failure` only when true |
| UserAgentProc.CompileIngest | generator/useragent/useragent.go:37-53 | the `user_agent` step, then a `remove` exactly when dropping |
| UserAgentProc.LogstashParams | generator/useragent/useragent.go:62-67 | `source` is the normalized field; `target` and `remove_field` only when set |
| UserAgentProc.LogstashBlock | generator/useragent/useragent.go:69-76 | one nested statement holding the `add_tag` of the tag and then the `useragent` filter, plus the debug print when verbose; the tags are that one tag |
| UserAgentProc.Logstash | generator/useragent/useragent.go:56-77 | a `_failure_useragent` tag is minted only when failures are not ignored; the block starts with one nested statement whose first filter is the `add_tag` of the tags |
| UserAgentProc.CompileLogstash | generator/useragent/useragent.go:56-77 | the unit and the new counter are those of the pure compilation |
| GsubProc.Make | generator/gsub/gsub.go:30-37 | field, pattern and replacement are required, checked in that order |
| GsubProc.IngestParams | generator/gsub/gsub.go:46-59 | `field`, `pattern` and `replacement` always; the optional keys only when set |
| GsubProc.CompileIngest | generator/gsub/gsub.go:45-67 | the `gsub` step, then a `remove` exactly when dropping |
| JsonProc.Make | generator/json/json.go:27-34 | the field is required |
| JsonProc.IngestParams | generator/json/json.go:43-53 | exactly one of `target_field` (when set) and `add_to_root`; `ignore_failure` only when true |
| JsonProc.CompileIngest | generator/json/json.go:42-60 | the `json` step, then a `remove` exactly when dropping |
| GeoipProc.Make | generator/geoip/geoip.go:25-32 | the field is required |
| GeoipProc.IngestParams | generator/geoip/geoip.go:35-40 | `field` always and `target_field` only when set |
| GeoipProc.CompileIngest | generator/geoip/geoip.go:34-47 | the `geoip` step, then a `remove` exactly when dropping |
| GeoipProc.LogstashParams | generator/geoip/geoip.go:50-54 | `source` is the normalized field; `target` and `remove_field` only when set |
| GeoipProc.CompileLogstash | generator/geoip/geoip.go:49-56 | exactly one `geoip` filter and no tags |
| RenameProc.Make | generator/rename/rename.go:25-32 | field and target are required; `ignore_missing` defaults to true |
| RenameProc.CompileIngest | generator/rename/rename.go:34-44 | one `rename` step with `field` and `target_field`, and `ignore_missing` only when true |
| RenameProc.CompileLogstash | generator/rename/rename.go:46-52 | one `mutate` renaming the normalized field to the normalized target |
| RemoveProc.Make | generator/remove/remove.go:23-30 | the field is required |
| RemoveProc.CompileIngest | generator/remove/remove.go:32-36 | one `remove` step whose only parameter is the field |
| RemoveProc.CompileLogstash | generator/remove/remove.go:39-43 | one `mutate` whose only parameter removes the normalized field, plus the debug print when verbose |
| ScriptProc.Validate | generator/script/script.go:63-73 | accepted exactly when one of code and id is set |
| ScriptProc.StripNewlines | generator/script/script.go:33-36 | no newline is left, and code without newlines is unchanged |
| ScriptProc.MakeAsWritten | generator/script/script.go:27-39 | loading as written: checked before the newlines are stripped |
| ScriptProc.Make | generator/script/script.go:27-39 | a loaded script has exactly one of code and id, and its code has no newline |
| ScriptProc.IngestParams | generator/script/script.go:42-50 | `lang: painless` always, and `source` and `id` only when set |
| ScriptProc.CompileIngest | generator/script/script.go:41-53 | one `script` step |
| ScriptProc.AsWrittenAcceptsBlankCode | generator/script/script.go:33-36 | as written, code of one newline is accepted and compiles to a step with neither code nor id; the corrected loader rejects it |
| ScriptProc.MakeAgreesWithAsWritten | generator/script/script.go:27-39 | the loader as written and the corrected one give the same processor whenever both load, and differ in success exactly for code that is non-empty but only newlines |
| RubyProc.OneLine | generator/ruby/ruby.go:41 | no newline is left, and code without newlines is unchanged |
| RubyProc.CompileLogstash | generator/ruby/ruby.go:40-47 | one `ruby` filter whose only parameter is the one-line code, plus the debug print when verbose |
| Processors.Names | generator/ls.go:98 | one name per processor, in order |
| Processors.CompileIngest | generator/ruby/ruby.go:35-37 | ruby always fails on the Ingest target; select compiles its Ingest list only |
| Processors.CompileIngestAllSpec | generator/gen.go:96-112 | the list compiles exactly when every processor does, then to their steps concatenated in order; otherwise to the first failing processor's error |
| Processors.CompileIngestAllOk | generator/gen.go:102-109 | the list compiles exactly when every processor does |
| Processors.CompileIngestAllSteps | generator/gen.go:101-111 | when all compile, the result is the concatenation of their steps |
| Processors.CompileIngestAllFirstError | generator/gen.go:103-106 | a failing list reports the error of its first failing processor |
| Processors.CompileLs | generator/reg.go:23 | kv, convert, gsub, json and script always fail on Logstash; date and useragent report one tag and mint at most one; the rest mint none and report none; select mints its tag first |
| Processors.CompileUnits | generator/ls.go:66-86 | one unit per processor, and the counter never goes back |
| Processors.CompileUnit | generator/ls.go:69-85 | a unit has no empty failure tag |
| Processors.UnitsRun | generator/ls.go:66-86 | compiling the units is running `CompileUnit` over the list in order, threading the tag counter and stopping at the first error |
| Processors.CompileUnitsEach | generator/ls.go:68-85 | when the list compiles, unit `k` is what processor `k` compiles to from the counter the processors before it leave |
| Processors.CompileUnitsFirstError | generator/ls.go:68-72 | a list that fails, fails at its first failing processor, with that processor's error, after all before it compiled; the processors after it play no part |
| Processors.CompileLsList | generator/ls.go:57-136 | no processors give an empty block, no tags and an unchanged counter |
| Processors.CompileLsListFirstError | generator/ls.go:57-72 | a failing Logstash list reports the error of its first failing processor, all processors before it having compiled |
| Processors.UnitWellFormed | generator/ls.go:69 | every unit that compiles is printable |
| Processors.UntaggedWellFormed | generator/ls.go:69 | the units of the kinds that mint no tag are printable |
| Processors.DateWellFormed | generator/date/date.go:109-114 | the date unit is printable |
| Processors.UserAgentWellFormed | generator/useragent/useragent.go:69-71 | the useragent unit is printable |
| Processors.RemoveWellFormed | generator/remove/remove.go:40-42 | the remove unit is printable |
| Processors.RubyWellFormed | generator/ruby/ruby.go:42-46 | the ruby unit is printable |
| Processors.UnitsWellFormed | generator/ls.go:66-86 | every compiled unit is printable |
| Processors.ListWellFormed | generator/ls.go:117-135 | a compiled list is printable |
| Threading.Run | generator/ls.go:66-86 | a run that succeeds gives one result per element |
| Threading.RunPrefixOk | generator/ls.go:66-86 | the prefixes of a successful run succeed with the prefixes of its results |
| Threading.RunEach | generator/ls.go:68-85 | in a successful run, element `k` ran from the counter the elements before it left and gave result `k` and the next counter |
| Threading.RunFirstError | generator/ls.go:68-72 | a failing run fails at its first failing element, with that element's error, and the elements after it play no part |
| Threading.All | generator/reg.go:42-49 | a successful map gives one result per element |
| Threading.AllOk | generator/reg.go:42-49 | the map succeeds exactly when every element does, and then gives their results in order |
| Threading.AllFirstError | generator/reg.go:44-47 | a failing map fails with the error of its first failing element, all before it having succeeded |
| Registry.BuildSpec | generator/sel/select.go:25-42 | a configuration of another kind's shape fails with the shape error; a leaf kind runs its own loader; select loads its Ingest list and then its Logstash list and fails on the first error |
| Registry.BuildLeaf | generator/reg.go:81 | each kind's configuration goes to that kind's own loader: its processor when the loader succeeds, its error otherwise; ruby always loads |
| Registry.LeafKind | generator/reg.go:81 | a loader that succeeds makes a processor of the kind its configuration is shaped for |
| Registry.LoadNamedSpec | generator/reg.go:75-82 | an unregistered name fails with `processor '<name>' not available` |
| Registry.LoadSpec | generator/reg.go:52-73 | a record without entries and one with several are rejected with their messages |
| Registry.LoadSpecSingle | generator/reg.go:66-72 | a one-entry record is loaded by its name and configuration |
| Registry.LoadAllSpec | generator/reg.go:37-50 | an empty list loads to nothing; a loaded list has one processor per record |
| Registry.LoadAllAll | generator/reg.go:42-49 | loading the list is applying `Load` to each record in order and stopping at the first error |
| Registry.LoadAllSpecProps | generator/reg.go:42-49 | the list loads exactly when every record does, giving each record's processor in order; otherwise the first failing record's error |
| Registry.LoadAllOk | generator/reg.go:42-49 | the list loads exactly when every record does |
| Registry.LoadAllValues | generator/reg.go:42-49 | the loaded processors are those of the records, in order |
| Registry.LoadAllFirstError | generator/reg.go:44-47 | a failing list reports the error of its first failing record |
| Registry.BuildKind | generator/reg.go:81 | a factory builds a processor of its own kind |
| Registry.LoadNamedKind | generator/reg.go:75-82 | a processor loaded by a built-in name is of that kind (`user_agent` reports as `useragent`) |
| Registry.Registry.constructor | generator/reg.go:13 | an empty registry |
| Registry.Registry.Register | generator/reg.go:26-31 | adds exactly that entry for a name not yet registered |
| Registry.Registry.RegisterBuiltins | generator/sel/select.go:21-23 | the registrations of all processor packages give the built-in map |
| Registry.Registry.RegisterGroup1 | generator/date/date.go:33-35 | the first five registrations |
| Registry.Registry.RegisterGroup2 | generator/useragent/useragent.go:22-24 | the next five registrations |
| Registry.Registry.RegisterGroup3 | generator/remove/remove.go:19-21 | the last four registrations |
| Registry.Registry.Find | generator/reg.go:33-35 | a factory exactly for registered names, and it is the registered one |
| Registry.Registry.Build | generator/reg.go:81 | the factory call agrees with the pure build |
| Registry.Registry.LoadNamed | generator/reg.go:75-82 | agrees with the pure named load |
| Registry.Registry.Load | generator/reg.go:52-73 | agrees with the pure record load |
| Registry.Registry.LoadAll | generator/reg.go:37-50 | the loop filling the processors agrees with the pure list load |
| Generator.CompileIngest | generator/gen.go:103 | one processor's Ingest compilation |
| Generator.CompileIngestProcessors | generator/gen.go:96-112 | the appending loop computes the list compilation: the steps in order or the first error |
| Generator.CompileLogstash | generator/ls.go:69 | one processor's unit and the counter after it, as the pure compilation gives them |
| Generator.CompileUntagged | generator/ls.go:69 | the same for the kinds that mint no tag |
| Generator.CompileRejected | generator/kv/kv.go:86-88 | the same for the kinds without a Logstash filter |
| Generator.FilterEmptyTags | generator/ls.go:74-83 | the loop keeps exactly the non-empty tags, in order |
| Generator.CompileLogstashProcessors | generator/ls.go:57-136 | the array-and-loop compiler returns the linked units and the handler tags of the pure compilation, or its first error, and advances the counter as it does |
| Generator.CompileBlocks | generator/ls.go:66-86 | the compile loop fills the array with the units in order, or stops at the first error |
| Generator.CompileInto | generator/ls.go:68-85 | one iteration: the prefix of units grows by one, or the whole list fails with this unit's error |
| Generator.MakeConds | generator/ls.go:88-115 | one handler conditional per unit and the handlers' tags; none when errors are disabled |
| Generator.FillGuards | generator/ls.go:91-115 | the guard loop fills the handler conditionals and collects the handlers' tags |
| Generator.GuardUnit | generator/ls.go:92-113 | a unit is guarded exactly when it has tags, and then contributes its handler's tags |
| Generator.DisabledHandlers | generator/ls.go:89-91 | with errors disabled, every handler is empty and no tag is collected |
| Generator.NextHandlerTags | generator/ls.go:99 | each guarded unit appends its handler's tags, and only those |
| Generator.LinkBlocks | generator/ls.go:117-130 | the backward loop computes the right fold of units and handlers |
| Generator.CompileUnit | generator/ls.go:69-85 | one unit with its empty tags dropped |
| Driver.New | generator/gen.go:19-30 | no processors is an error before loading; otherwise the description and the loaded processors in order, or the first load error |
| Driver.DefaultOnFailure | generator/gen.go:70-75 | one `set` step writing the failure message into `error.message` |
| Driver.CompileIngest | generator/gen.go:59-78 | the description, every processor's steps in order and the default failure handler, or the first processor's error |
| Driver.LogstashProgram | generator/gen.go:47-54 | in verbose mode, `init` and `emit` debug prints around the block; the id and the description are kept |
| Driver.LogstashProgramWellFormed | generator/gen.go:47-50 | the debug prints keep the program printable |
| Driver.MakeLogstash | generator/gen.go:41-57 | for a valid visiting order of object keys: a compile error is returned before anything is written; otherwise the program text is written, and a write that does not fit is a short write |

## Left out

- The command line, the HTTP calls to Elasticsearch, running the `logstash`
  process and reading events: this is I/O and concurrency with no compiler
  logic in it.
- `ingest.Serialize` and `MakeIngest` (prog/ingest/ingest.go:28-32,
  generator/gen.go:32-39): JSON encoding by the standard library. The model
  stops at the `Ingest.Pipeline` value.
- Configuration unpacking with `validate:"required"` tags is done by an
  external library. Each kind's configuration is an already-unpacked record
  (`Registry.RawConfig`), and an empty string stands for a missing required
  option. A record of one kind given to another kind's factory fails with a
  fixed unpack error instead of the library's message. The library is taken
  to run `Validate` while unpacking, before a factory's own code.
- `gotype.Fold` is an external visitor. It is modelled as recursion over the
  `Value` datatype that calls the printer's callbacks.
- The order in which Go visits map keys is unspecified. It is a `KeyOrder`
  parameter of the printer. The printing operations require a valid order
  (`LsRender.ValidOrder`): one that lists each key of the object exactly
  once. Which of those orders Go picks is not modelled.
- Floating-point and other `%v` number formatting: parameter values are nil,
  strings, booleans, integers, objects and arrays.
- `Params.RemoveTag` is called but defined in no source file that is part of
  this model. The failure tag of `MakeRuby` and of `useragent` is not
  removed from the parameters.
- The generated Ruby and Painless snippets are opaque text. The model shows
  where they are placed, including the misspelled `Patter.quote` call of
  generator/split/split.go:73, but not what they do.
- generator/gen.go:80-94, generator/gen.go:114-129 and generator/reg.go:17-24
  belong to an older revision of the Logstash interface. The `FilterBlock`
  interface of generator/ls.go is followed. Processors whose Logstash method
  has an older signature are given that interface and report no failure
  tags.
- `Name` is missing from several processor files. The registered name is
  used for it, and `useragent` keeps its own spelling.
- The `onError` closures are a datatype, `GenLs.ErrorPolicy`: the top-level
  reporter or the select tagger.
- GenLs.LogstashCtx.CreateTag: the tag counter is an unbounded `nat`. It
  does not wrap around.
- Registry.Registry.Register: a duplicate registration panics in the source.
  Here it is excluded by the precondition instead.
- LsFormat.ParamPrinter.OnKey: the source panics on an empty top-level key.
  Here the precondition excludes it, and every compiled program is proved to
  have no such key.
- LsFormat.Serialize: a writer is a buffer with room for `capacity`
  characters. A write that does not fit keeps what fits, and fails with a
  short write. Other writer errors are not modelled.
- Strs.Quote: Go's Unicode printability tables are not part of the model.
  Up to U+00FF the printable set is exact. Above it, only the listed
  separator, format, private-use and noncharacter ranges and the unassigned
  planes 4 to 14 are escaped; other unassigned or non-printable code points
  are kept as they are. Strings are sequences of Unicode scalar values, so
  the `\xHH` escape of invalid UTF-8 bytes is not modelled.
- Registry.BuildSpec: scripts are loaded with the corrected
  `ScriptProc.Make` of the Findings table. Code that is non-empty but only
  newlines is handled as the corrected loader handles it, not as
  generator/script/script.go:27-39 does. `ScriptProc.MakeAsWritten` and
  `ScriptProc.MakeAgreesWithAsWritten` describe the difference.
- A unit's own failure tags are not de-duplicated before its guard is built.
  The guard gets one test per tag, as the code does.

## Findings

| source | as written | input that shows it | evidently intended | confidence | as-written member | corrected member |
|---|---|---|---|---|---|---|
| generator/script/script.go:33-36 | the exactly-one-of check of `code` and `id` runs before the newlines are stripped from `code` | `code: "\n"` with no `id`: accepted, then stripped to empty; the Ingest step has only `lang` and runs neither code nor a stored script | the check holds for the code that is kept: a loaded script has exactly one of code and id | not executed | ScriptProc.AsWrittenAcceptsBlankCode | ScriptProc.Make |
