# goats, gotypes: Go types as Zod schemas

This project is a Dafny model of the core of `gotypes`, the part of the goats repository that turns Go types into Zod schemas and prints them as TypeScript source. It covers these pieces:

- **The Zod schema algebra** (`gotypes/zod`). Schema nodes (plain expression, number, string, array, object, branded, nullable, optional) and their combinators, in the module `Zod`. The rendering laws are in `ZodLaws`.
- **The TypeScript source model** (`gotypes/ts`). Text, imported names and grouped nodes, with braced, statement and format-string layouts, in `Ts` and `TsSource`. `TsSource` also has the indentation-aware writer, which keeps a single "just wrote a newline" flag, and the import collection. `TsLayout` proves what the printer lays out.
- **The translation** (`gotypes/gozod`), in these modules:
  - `GoZodConfig`: the configuration options.
  - `GoZodJson`: JSON tag handling and the walk over a struct's JSON fields.
  - `GoZodRules`: the per-kind schema rules, naming and branding.
  - `GoZodTemplating`: the template regex compiler.
  - `GoZodMapper`: the memoizing mapper, the accounting resolver and the schema builder.
  - `GoZodDeclarations`: the ordering of the emitted declarations.
- **The Go type descriptor** (`gotypes/goinsp`). An abstract datatype in `GoInsp`: kind, name, package path, element, key, fields, type-argument projection, and an uninterpreted `Implements`.
- **The option types and helpers** (`gotypes/util`): `UtilOptional`, `UtilNoneWhenZero`, `UtilZero` and `UtilSlices`.
- **Shared support**: `Strings` (the string helpers the code uses from Go's standard library), `Ordering` (the sort orders) and `Outcomes`.

How the model represents things:

- **Panics and divergence.** A Go panic is the `Panics` case of `Outcome`. The mapper recurses through the builder and the resolver. Go caches a type only after its build returns (gotypes/gozod/mapper.go:33-57), so every self-referential type, named or not, recurses without end. `GoType` is an inductive datatype, so such a type cannot be written down and is outside the model. What can still recurse without end is the configuration: a schema or transform callback, or a union or discriminated-union member, that names the type being built. Every resolution therefore carries a fuel count, and running out of it is the `Diverges` case.
- **State.** The mapper's two tables and the accounting resolver's observations change in place in Go, so `Mapper` and `AccountingResolver` are classes with `modifies` clauses. Everything else is an immutable value in the source and a datatype here.
- **Collaborators.** Reflection is the `GoType` datatype. The comments loader is data (`CommentsLoader`). Configuration callbacks are data that name the references they resolve and say how they build the result (`SchemaCallback`, `TransformCallback`).
- **Go maps.** A Go map's iteration order is unspecified. Code that lists a map's keys (`maps.Keys`) is modelled with the `Ordering.Listing` of the key set, and every property proved about the result holds for any order.

## Model

| member | source | states |
|---|---|---|
| UtilZero.Zero | gotypes/util/zero.go:4 | the zero value of a type is the value supplied as that type's zero |
| UtilZero.ZeroIsZero | gotypes/util/zero.go:4-10 | `IsZero(Zero())` holds and `IsNonZero(Zero())` does not |
| UtilZero.IsNonZeroIsNegation | gotypes/util/zero.go:13-15 | `IsNonZero(v)` holds exactly when `v` differs from the zero value |
| UtilSlices.MapSeq | gotypes/util/slices.go:6-12 | the mapped slice has the input's length and element `i` is `f(as[i])` |
| UtilSlices.Map | gotypes/util/slices.go:6-12 | the loop that fills a fresh slice element by element yields exactly `MapSeq(as, f)` |
| UtilSlices.MapSeqCompose | gotypes/util/slices.go:6-12 | mapping by `f` then by `g` is mapping by their composition |
| UtilSlices.Singleton | gotypes/util/slices.go:26-28 | a one-element slice holding the value |
| UtilSlices.Slice | gotypes/util/slices.go:30-32 | the variadic arguments come back element for element |
| UtilOptional.Optional.All | gotypes/util/optional.go:36-38 | true exactly when the optional is empty or its value satisfies the predicate |
| UtilOptional.Optional.Exists | gotypes/util/optional.go:40-42 | true exactly when a value is present and satisfies the predicate |
| UtilOptional.Optional.IfPresentCalls | gotypes/util/optional.go:44-48 | the callback runs at most once, exactly when a value is present, and on that value |
| UtilOptional.Optional.Filter | gotypes/util/optional.go:50-55 | keeps the optional when its value passes the predicate, otherwise yields the empty optional |
| UtilOptional.Optional.Get | gotypes/util/optional.go:96-98 | the (value, present) pair rebuilds the same optional through `TupleAsOptional` |
| UtilOptional.Optional.GetOrElse | gotypes/util/optional.go:100-102 | the value when present, the fallback otherwise |
| UtilOptional.Optional.GetOrElseDefault | gotypes/util/optional.go:104-106 | falls back to the zero value of the type |
| UtilOptional.Optional.GetOrElseFunc | gotypes/util/optional.go:108-110 | falls back to the value the supplier returns |
| UtilOptional.Optional.MustGet | gotypes/util/optional.go:116-121 | returns the value when present and panics (a failure outcome) exactly when empty |
| UtilOptional.Optional.Or | gotypes/util/optional.go:123-128 | the receiver when it holds a value, otherwise the other optional |
| UtilOptional.AsOptional | gotypes/util/optional.go:20-22 | a present optional holding the value |
| UtilOptional.None | gotypes/util/optional.go:24-26 | the empty optional, carrying the zero value |
| UtilOptional.TupleAsOptional | gotypes/util/optional.go:28-30 | presence and value are taken from the pair |
| UtilOptional.FoldOptional | gotypes/util/optional.go:130-135 | `f(initial, v)` when present, `initial` otherwise |
| UtilOptional.MapOptional | gotypes/util/optional.go:137-139 | presence is kept and a present value is mapped by `f` |
| UtilOptional.MapOptionalWithDefault | gotypes/util/optional.go:141-146 | `f(v)` when present, the default otherwise |
| UtilOptional.MapOptionalWithDefaultFunc | gotypes/util/optional.go:148-153 | as `MapOptionalWithDefault` with the supplier's value as default |
| UtilOptional.GetRoundTrip | gotypes/util/optional.go:28-30 | `Get` undoes `TupleAsOptional` |
| UtilOptional.MustGetAsOptional | gotypes/util/optional.go:116-121 | `MustGet` of a present optional never panics and returns its value |
| UtilOptional.AllExistsDual | gotypes/util/optional.go:36-42 | `All(p)` is the negation of `Exists(not p)` |
| UtilOptional.OrAssociative | gotypes/util/optional.go:123-128 | `Or` is associative |
| UtilOptional.OrLeftIdentity | gotypes/util/optional.go:123-128 | the empty optional is a left identity of `Or` |
| UtilOptional.FilterIdempotent | gotypes/util/optional.go:50-55 | filtering twice by the same predicate is filtering once |
| UtilOptional.MapOptionalIdentity | gotypes/util/optional.go:137-139 | mapping by the identity keeps a present optional and normalises an empty one |
| UtilOptional.MapOptionalCompose | gotypes/util/optional.go:137-139 | mapping twice is mapping once by the composition |
| UtilOptional.FoldIsMapWithDefault | gotypes/util/optional.go:130-146 | `FoldOptional` is `MapOptionalWithDefault` with `initial` as default |
| UtilOptional.GetOrElseIsMap | gotypes/util/optional.go:100-146 | `GetOrElse` is `MapOptionalWithDefault` with the identity |
| UtilOptional.IfPresentCallsSingleton | gotypes/util/optional.go:44-48 | a present optional calls back exactly once, with its value |
| UtilNoneWhenZero.NoneWhenZero.HasValue | gotypes/util/none_when_zero.go:55-57 | present exactly when the held value is not the zero value |
| UtilNoneWhenZero.NoneWhenZero.All | gotypes/util/none_when_zero.go:59-61 | true exactly when the value is zero or satisfies the predicate |
| UtilNoneWhenZero.NoneWhenZero.Exists | gotypes/util/none_when_zero.go:63-65 | true exactly when the value is non-zero and satisfies the predicate |
| UtilNoneWhenZero.NoneWhenZero.IfPresentCalls | gotypes/util/none_when_zero.go:67-71 | the callback runs at most once, exactly when the value is non-zero, and on that value |
| UtilNoneWhenZero.NoneWhenZero.Filter | gotypes/util/none_when_zero.go:73-78 | kept when the predicate holds, otherwise the zero (absent) value |
| UtilNoneWhenZero.NoneWhenZero.Get | gotypes/util/none_when_zero.go:98-100 | returns the held value and whether it is non-zero |
| UtilNoneWhenZero.NoneWhenZero.GetOrElse | gotypes/util/none_when_zero.go:102-107 | the value when non-zero, the fallback otherwise |
| UtilNoneWhenZero.NoneWhenZero.GetOrElseFunc | gotypes/util/none_when_zero.go:109-114 | falls back to the supplier's value |
| UtilNoneWhenZero.NoneWhenZero.MustGet | gotypes/util/none_when_zero.go:116-121 | panics exactly when the value is zero, otherwise returns it |
| UtilNoneWhenZero.NoneWhenZero.Or | gotypes/util/none_when_zero.go:123-128 | the receiver when non-zero, otherwise the other value |
| UtilNoneWhenZero.NoneWhenZero.ToOption | gotypes/util/none_when_zero.go:130-132 | an optional holding the value, present exactly when it is non-zero |
| UtilNoneWhenZero.NoneWhenZero.ToPtr | gotypes/util/none_when_zero.go:134-139 | nil exactly when the value is zero, otherwise a pointer to it |
| UtilNoneWhenZero.NoneWhenZero.ToSlice | gotypes/util/none_when_zero.go:141-143 | the empty slice for the zero value, otherwise the one-element slice |
| UtilNoneWhenZero.AsNoneWhenZero | gotypes/util/none_when_zero.go:28-30 | wraps the value unchanged |
| UtilNoneWhenZero.NoneZero | gotypes/util/none_when_zero.go:36-38 | the absent value |
| UtilNoneWhenZero.NoneWhenZeroFromOptional | gotypes/util/none_when_zero.go:40-45 | absent exactly when the optional is empty or holds the zero value; otherwise holds the optional's value |
| UtilNoneWhenZero.FoldNoneWhenZero | gotypes/util/none_when_zero.go:145-150 | `initial` for the zero value, `f(initial, v)` otherwise |
| UtilNoneWhenZero.MapNoneWhenZero | gotypes/util/none_when_zero.go:152-154 | absent stays absent; a present value is mapped by `f` |
| UtilNoneWhenZero.MapNoneWhenZeroWithDefault | gotypes/util/none_when_zero.go:156-161 | the default for the zero value, `f(v)` otherwise |
| UtilNoneWhenZero.MapNoneWhenZeroWithDefaultFunc | gotypes/util/none_when_zero.go:163-168 | as above with the supplier's value as default |
| UtilNoneWhenZero.FlatMapNoneWhenZero | gotypes/util/none_when_zero.go:170-172 | absent stays absent; otherwise the result of `f` |
| UtilNoneWhenZero.Combine | gotypes/util/none_when_zero.go:176-182 | absent when either side is absent, otherwise `f` of both values |
| UtilNoneWhenZero.MapNoneWhenZeroToOptional | gotypes/util/none_when_zero.go:184-186 | present exactly when the value is non-zero, holding `f(v)` |
| UtilNoneWhenZero.MapOptionalToNoneWhenZero | gotypes/util/optional.go:155-157 | absent for an empty optional, otherwise `f(v)` |
| UtilNoneWhenZero.ToNoneWhenZero | gotypes/util/optional.go:159-161 | keeps the optional's held value |
| UtilNoneWhenZero.HasValueIffNonZero | gotypes/util/none_when_zero.go:55-57 | `HasValue` coincides with `IsNonZero` of the held value |
| UtilNoneWhenZero.ToOptionRoundTrip | gotypes/util/none_when_zero.go:40-45 | converting to an optional and back returns the same value |
| UtilNoneWhenZero.ToSliceIsIfPresent | gotypes/util/none_when_zero.go:67-71 | `ToSlice` lists exactly the values `IfPresent` would call back with |
| UtilNoneWhenZero.OrAssociative | gotypes/util/none_when_zero.go:123-128 | `Or` is associative |
| UtilNoneWhenZero.CombineSymmetric | gotypes/util/none_when_zero.go:176-182 | `Combine` with swapped arguments and a flipped function gives the same result |
| Strings.IndexOf | gotypes/ts/source.go:131 | a found index is an occurrence of the separator |
| Strings.IndexOfFirst | gotypes/ts/source.go:131 | a found index is the first occurrence; no index means the separator occurs nowhere |
| Strings.IndexOfIs | gotypes/ts/source.go:131 | the first occurrence is the index found |
| Strings.Cut | gotypes/gozod/go.go:8 | `strings.Cut`: when found, `s == before + sep + after`; when not, `before` is the whole string and `after` is empty |
| Strings.CutFirst | gotypes/gozod/go_json.go:30 | `Cut` splits at the first occurrence, and reports not found exactly when the separator occurs nowhere |
| Strings.CutAfter | gotypes/gozod/string_templating.go:80 | a string built as `a + sep + b` with no earlier occurrence is cut into `a` and `b` |
| Strings.Count | gotypes/ts/ts.go:126 | `strings.Count`: zero exactly when the separator does not occur |
| Strings.CountCons | gotypes/ts/ts.go:126 | one more occurrence for each separator placed in front of the rest |
| Strings.CountNone | gotypes/ts/ts.go:126 | no occurrence in a string free of the separator's first character |
| Strings.CutChar | gotypes/gozod/go.go:11 | cutting at a one-character separator finds it exactly when it occurs, and the part before is free of it |
| Strings.Split | gotypes/ts/ts.go:51 | `strings.Split` gives at least one part, and joining the parts with the separator gives back the string |
| Strings.SplitWithout | gotypes/ts/ts.go:51 | a string without the separator splits into itself alone |
| Strings.SplitPiecesFree | gotypes/ts/source.go:127 | no part of a split contains the separator |
| Strings.LastIndexOf | gotypes/goinsp/go.go:14 | `strings.LastIndex` of a character: -1 or an index holding it, with no later occurrence |
| Strings.LastIndexOfAt | gotypes/goinsp/go.go:19 | in `a + [c] + b` with `c` not in `b`, the last index is `|a|` |
| Strings.TrimLeftSpace | gotypes/ts/ts.go:45 | the result is a suffix of the input; everything removed before it is white space in the sense of `unicode.IsSpace`, and it does not start with white space |
| Strings.TrimRightSpace | gotypes/ts/ts.go:45 | the result is a prefix of the input; everything removed after it is white space, and it does not end with white space |
| Strings.TrimSpace | gotypes/ts/ts.go:45 | the result is a slice of the input with only white space (Latin-1 and the other Unicode White_Space characters) before and after it, and it neither starts nor ends with white space |
| Strings.LeadingBlanks | gotypes/ts/source.go:134 | the longest prefix of spaces and tabs: all of it blanks, and the next character is not one |
| Strings.ReplaceChar | gotypes/ts/ts.go:145 | a string without the target character is left as it is |
| Strings.ReplaceCharAppend | gotypes/ts/ts.go:145 | replacing in a concatenation is concatenating the replaced parts |
| Strings.LessIrreflexive | gotypes/gozod/zod_type_builder.go:340 | Go's string comparison is irreflexive |
| Strings.LessTransitive | gotypes/gozod/zod_type_builder.go:340 | it is transitive |
| Strings.LessTotal | gotypes/gozod/zod_type_builder.go:340 | it is total on distinct strings |
| Ordering.PartLessIrreflexive | gotypes/gozod/zod_type_builder.go:337-340 | one `cmp.Compare` step is irreflexive |
| Ordering.PartLessTransitive | gotypes/gozod/zod_type_builder.go:337-340 | it is transitive |
| Ordering.PartLessTotal | gotypes/gozod/zod_type_builder.go:337-340 | it is total |
| Ordering.PartLessAsymmetric | gotypes/gozod/zod_type_builder.go:337-340 | it is asymmetric |
| Ordering.KeyLessIrreflexive | gotypes/gozod/zod_type_builder.go:331-342 | the comparison that decides by the first differing field is irreflexive |
| Ordering.KeyLessTransitive | gotypes/gozod/zod_type_builder.go:331-342 | it is transitive |
| Ordering.KeyLessTotal | gotypes/gozod/zod_type_builder.go:331-342 | it is a total order on distinct keys |
| Ordering.KeyLessAsymmetric | gotypes/gozod/zod_type_builder.go:331-342 | it is asymmetric |
| Ordering.KeyLessPair | gotypes/ts/source.go:210-215 | two-field keys compare by the first field, then by the second |
| Ordering.LeastExists | gotypes/gozod/zod_type_builder.go:331-342 | a non-empty set with distinct keys has a least element |
| Ordering.LeastUnique | gotypes/gozod/zod_type_builder.go:331-342 | that least element is unique |
| Ordering.SortByKey | gotypes/gozod/zod_type_builder.go:331-342 | the sorted order of a set with distinct keys: every element exactly once, keys strictly increasing |
| Ordering.ListingHead | gotypes/gozod/zod_type_builder.go:331-342 | a sorted listing starts with the least element |
| Ordering.ListingTail | gotypes/gozod/zod_type_builder.go:331-342 | dropping the head of a sorted listing leaves a sorted listing of the rest |
| Ordering.SortedListingUnique | gotypes/gozod/zod_type_builder.go:331-342 | with distinct keys there is only one sorted listing, `SortByKey` |
| Ordering.Insert | gotypes/ts/source.go:210-215 | inserting keeps every element and adds the new one |
| Ordering.InsertSorted | gotypes/ts/source.go:210-215 | inserting a new key into a sorted sequence keeps it sorted |
| Ordering.InsertionSort | gotypes/ts/source.go:210-215 | sorting keeps the length and the set of elements |
| Ordering.InsertionSortSorted | gotypes/ts/source.go:210-215 | the result of sorting distinct elements with distinct keys is sorted |
| Ordering.SortListing | gotypes/ts/source.go:209-215 | sorting any listing of a set gives the unique sorted listing, whatever order the map keys came in |
| Ordering.SortedDistinct | gotypes/ts/source.go:210-215 | a strictly sorted sequence has no repeats |
| Ordering.DistinctElements | gotypes/ts/source.go:209 | a sequence without repeats has as many elements as its set |
| Ordering.DistinctConcat | gotypes/gozod/zod_type_builder.go:378 | concatenating disjoint sequences without repeats has no repeats |
| Ordering.DistinctMultiplicity | gotypes/gozod/zod_type_builder.go:367 | no repeats means every multiplicity is at most one |
| Ordering.ElementsEmpty | gotypes/gozod/zod_type_builder.go:330 | a listing is empty exactly when its set is |
| Ordering.DeletePermutes | gotypes/gozod/zod_type_builder.go:367 | `slices.Delete` of one index removes exactly that element from the multiset |
| Ordering.DistinctPermutation | gotypes/gozod/zod_type_builder.go:367 | a permutation of a sequence without repeats has none |
| Ordering.Listing | gotypes/gozod/zod_type_builder.go:330 | `maps.Keys`: lists each key of the set exactly once, in some order |
| GoInsp.LastSegment | gotypes/goinsp/go.go:12-20 | the text after the last `/`, free of `/`, and the whole path when it has none |
| GoInsp.LastNonVersionSegment | gotypes/goinsp/go.go:8-20 | the last segment unless it matches `v\d+`; then the segment before it, and a panic when there is no `/` |
| GoInsp.SkipsTrailingVersion | gotypes/goinsp/go.go:12-20 | `a.com/foo/v2` names package `foo` |
| GoInsp.UnanchoredVersion | gotypes/goinsp/go.go:8 | the version pattern is unanchored, so `a.com/dev2` names `a.com` |
| GoInsp.NoVersionWithoutV | gotypes/goinsp/go.go:8 | a segment without `v` never matches the version pattern |
| GoInsp.SingleSegmentPath | gotypes/goinsp/go.go:12-20 | `strings` names itself |
| GoInsp.SingleVersionSegmentPanics | gotypes/goinsp/go.go:14-16 | a lone version segment without `/` makes the slicing panic |
| GoInsp.StructField.TagGet | gotypes/goinsp/struct_field.go:14-19 | the tag's value for a key, or the empty string when the key is absent |
| GoInsp.GoType.Len | gotypes/goinsp/reflective/type_adaptor.go:36-38 | panics unless the type is an array, otherwise its length |
| GoInsp.GoType.NumField | gotypes/goinsp/reflective/type_adaptor.go:40-42 | panics unless the type is a struct, otherwise its number of fields |
| GoInsp.GoType.Key | gotypes/goinsp/reflective/type_adaptor.go:44-46 | a map's key type, smaller than the map type; panics for the other kinds |
| GoInsp.GoType.Elem | gotypes/goinsp/reflective/type_adaptor.go:48-50 | the element type of an array, channel, map, pointer or slice; panics otherwise |
| GoInsp.GenType.Len | gotypes/goinsp/reflective/type_constructor.go:39-44 | a type constructor's `Len` panics unless it is an array |
| GoInsp.GenType.NumField | gotypes/goinsp/reflective/type_constructor.go:46-51 | a type constructor's `NumField` panics unless it is a struct |
| GoInsp.GenType.Comment | gotypes/goinsp/reflective/type_constructor.go:57-59 | comments are never available on these descriptors |
| GoInsp.UpToOpeningBrace | gotypes/goinsp/reflective/type_constructor.go:85-88 | the prefix before the first `[`, free of `[`, and the whole text when there is none |
| GoInsp.UpToOpeningBraceIdempotent | gotypes/goinsp/reflective/type_constructor.go:85-88 | cutting at `[` twice is cutting once |
| GoInsp.GenericBase | gotypes/goinsp/reflective/type_constructor.go:62-69 | the constructor takes name and string up to `[`, the package path and the kind, with length and field count zero |
| GoInsp.NewGenericTypeAsWritten | gotypes/goinsp/reflective/type_constructor.go:61-83 | panics exactly for kinds other than slice, array and struct whose name holds no `[`; otherwise agrees with `NewGenericType` |
| GoInsp.NewGenericType | gotypes/goinsp/reflective/type_constructor.go:61-83 | arrays keep their length and structs their field count; every other kind, maps included, keeps only the base |
| GoInsp.WithoutTypeArgumentsAsWritten | gotypes/goinsp/reflective/type_adaptor.go:57-62 | constructors and non-generic types project onto themselves; generic ones go through `newGenericType` as written |
| GoInsp.MapProjectionPanics | gotypes/goinsp/reflective/type_adaptor.go:57-62 | every map type whose name holds no type arguments panics when projected |
| GoInsp.WithoutTypeArguments | gotypes/goinsp/reflective/type_adaptor.go:57-62 | the corrected projection, which agrees with the code whenever that does not panic |
| GoInsp.WithoutTypeArgumentsIdempotent | gotypes/goinsp/reflective/type_constructor.go:53-55 | projecting a projection changes nothing and keeps package path and kind |
| GoInsp.ProjectedNameHasNoArguments | gotypes/goinsp/reflective/type_constructor.go:62-64 | a projected generic type's name holds no `[` |
| GoZodUtil.UpperByte | gotypes/gozod/util.go:8 | `strings.ToUpper` of one byte: ASCII letters are upper-cased, other ASCII bytes kept, and a non-ASCII byte becomes U+FFFD |
| GoZodUtil.Capitalize | gotypes/gozod/util.go:7-9 | panics exactly on the empty string; otherwise the first ASCII byte is upper-cased and the rest kept |
| GoZodUtil.CapitalizeIdempotent | gotypes/gozod/util.go:7-9 | capitalizing twice is capitalizing once |
| GoZodUtil.Collected | gotypes/gozod/util.go:11-19 | at most `cap` elements are kept |
| GoZodUtil.CollectedFrom | gotypes/gozod/util.go:11-19 | every kept element comes from an accepted index |
| GoZodUtil.CollectedCount | gotypes/gozod/util.go:11-19 | exactly one element is kept per accepted index |
| GoZodUtil.CollectSlice | gotypes/gozod/util.go:11-19 | panics exactly on a negative capacity; otherwise the loop keeps exactly `Collected` |
| Ts.Array | gotypes/ts/ts.go:34-36 | an array-style group of exactly the elements |
| Ts.AsSource | gotypes/ts/ts.go:38-40 | a plain text holding the string |
| Ts.DocLine | gotypes/ts/ts.go:51-57 | a comment line: ` *` for an empty line, ` * ` and the line otherwise |
| Ts.DocComment | gotypes/ts/ts.go:44-59 | nothing for a blank comment; otherwise the trimmed comment split into lines and framed as a JSDoc block |
| Ts.DocCommentOfSpaces | gotypes/ts/ts.go:45-48 | a comment made only of white space, such as U+3000, gives empty text |
| Ts.ImportedName | gotypes/ts/ts.go:71-73 | a name whose only import is itself from the given module |
| Ts.CountTwoPlaceholders | gotypes/ts/ts.go:126 | a format `%s…%s` without `%` in between has two placeholders |
| Ts.Fmt | gotypes/ts/ts.go:125-133 | a format without arguments is its text; with arguments a format group; either way it imports what its arguments import |
| Ts.Sourcef | gotypes/ts/ts.go:125-133 | panics exactly when the number of `%s` differs from the number of arguments |
| Ts.ImportsOfPair | gotypes/ts/source.go:54-58 | a group of two imports what either element imports |
| Ts.Juxtapose | gotypes/ts/ts.go:77-79 | two sources side by side, importing what both import |
| Ts.JuxtaposeSourcef | gotypes/ts/ts.go:125-133 | juxtaposition is `Sourcef("%s%s", …)`, which never panics |
| Ts.PropertySourcef | gotypes/ts/ts.go:106-114 | a property is `Sourcef("%s: %s", …)` of its key and value, which never panics |
| Ts.InvokeFunction | gotypes/ts/ts.go:77-79 | the callee followed by the arguments in an invocation group, importing what all of them import |
| Ts.Member | gotypes/ts/ts.go:83-85 | `receiver.name`, importing what the receiver imports |
| Ts.MemberSourcef | gotypes/ts/ts.go:83-85 | member access is `Sourcef("%s.%s", …)`, which never panics |
| Ts.InvokeMethod | gotypes/ts/ts.go:83-85 | invoking the member `receiver.name` |
| Ts.NatText | gotypes/ts/ts.go:88-91 | the decimal text of a natural number is non-empty and made of digits |
| Ts.NatTextRoundTrip | gotypes/ts/ts.go:88-91 | reading the decimal text back gives the number |
| Ts.NumberLiteral | gotypes/ts/ts.go:88-91 | the decimal text of an integer, with a leading `-` when negative |
| Ts.Property.AsSource | gotypes/ts/ts.go:106-114 | `key: value` with the corrected identifier test choosing bare or quoted key |
| Ts.Property.AsSourceAsWritten | gotypes/ts/ts.go:106-114 | `key: value` with the key bare whenever the unanchored identifier pattern matches |
| Ts.PropertyKey | gotypes/ts/ts.go:107-112 | the name itself when it is an identifier, else its string literal |
| Ts.Object | gotypes/ts/ts.go:95-97 | an object-style group with one `key: value` element per property, in order, with keys chosen by the corrected identifier test |
| Ts.RegexLiteral | gotypes/ts/ts.go:118-121 | the pattern between slashes |
| Ts.Statements | gotypes/ts/ts.go:136-138 | statement groups with no blank lines between |
| Ts.StatementGroups | gotypes/ts/ts.go:141-143 | a statement group of exactly the groups; a negative count of blank lines acts as zero |
| Ts.StringEscape | gotypes/ts/ts.go:145-151 | each `"` escaped as `\"`, and text without quotes unchanged |
| Ts.StringLiteral | gotypes/ts/ts.go:155-157 | the escaped text in double quotes |
| Ts.IsValidIdentifierAsWritten | gotypes/ts/literals.go:16-20 | the pattern as written accepts any text holding an identifier start anywhere |
| Ts.ValidIdentifierAccepted | gotypes/ts/literals.go:16-20 | every genuine identifier is accepted by the pattern as written |
| Ts.UnanchoredIdentifierCounterexample | gotypes/ts/literals.go:16-20 | `a-b` passes the pattern as written, so the property key `a-b` is printed bare; the corrected test quotes it |
| Ts.PropertyKeyWellFormed | gotypes/ts/ts.go:107-112 | a property key is always an identifier or a quoted string literal |
| Ts.IdentifierExamples | gotypes/ts/literals.go:16-20 | `-` and the empty string are no identifiers, `renamed` and `Exported` are |
| TsSource.Imports.Add | gotypes/ts/source.go:23-28 | the set of imports gains the import and nothing else |
| TsSource.AddToImports | gotypes/ts/source.go:54-58 | the imports gain exactly those of the source tree |
| TsSource.IndentationAwareWriter.WriteStringAtIndentation | gotypes/ts/source.go:160-166 | the indentation is written first only at the start of a line, and a non-empty text is written |
| TsSource.IndentationAwareWriter.WriteRawString | gotypes/ts/source.go:168-175 | the text is appended, and the line-start flag follows its last character |
| TsSource.IndentationAwareWriter.WriteNewline | gotypes/ts/source.go:177-179 | a line break is appended |
| TsSource.IndentationAwareWriter.EnsureNewline | gotypes/ts/source.go:181-185 | a line break is appended unless one was just written |
| TsSource.SourceWriter.WriteString | gotypes/ts/source.go:192-194 | writes at the writer's own indentation |
| TsSource.SourceWriter.Indent | gotypes/ts/source.go:196-198 | the same underlying writer, indented by one more level |
| TsSource.SourceWriter.IndentBy | gotypes/ts/source.go:200-202 | the same underlying writer, indented by the additional text |
| TsSource.WriteSourceTo | gotypes/ts/source.go:60-62 | writing a source has the effect `Emit` describes |
| TsSource.WriteBracedGroupTo | gotypes/ts/source.go:83-106 | braced groups: empty as opening and closing text, short ones on one line, long ones one element per line |
| TsSource.WriteStatementsTo | gotypes/ts/source.go:110-120 | statements end their lines, with the blank lines between groups |
| TsSource.WriteFormatTo | gotypes/ts/source.go:126-153 | each `%s` of the format is replaced by its argument, indented by the blanks that start its line |
| TsSource.ImportKey | gotypes/ts/source.go:210-215 | imports are keyed by module, then name |
| TsSource.ImportKeyInjective | gotypes/ts/source.go:210-215 | distinct imports have distinct keys, so their sorted order is unique |
| TsSource.SortedImports | gotypes/ts/source.go:209-215 | every import once, sorted by module, then name |
| TsSource.ToString | gotypes/ts/source.go:204-226 | `toString` returns the sorted import block followed by the source as the writer prints it |
| TsLayout.Layout | gotypes/ts/source.go:60-153 | the reference layout: statement groups end in a line break and nothing else does |
| TsLayout.Layouts | gotypes/ts/source.go:83-106 | one layout per element, none ending in a line break |
| TsLayout.StatementPieces | gotypes/ts/source.go:110-120 | one piece per statement, each ending in a line break |
| TsLayout.EmitLayout | gotypes/ts/source.go:34-153 | the writer prints exactly `Layout`, indented when a line has just begun |
| TsLayout.EmitBracedLayout | gotypes/ts/source.go:83-106 | the braced writer prints the braced layout |
| TsLayout.EmitInlineBody | gotypes/ts/source.go:93-97 | a short group is padding, the elements separated by `, `, padding |
| TsLayout.EmitMultilineBody | gotypes/ts/source.go:98-104 | a long group puts each element on its own indented line, each followed by a comma |
| TsLayout.EmitJoinedLayout | gotypes/ts/source.go:93-97 | the single-line loop writes the layouts joined by `, ` |
| TsLayout.EmitLinesLayout | gotypes/ts/source.go:98-104 | the multi-line loop writes each layout on a new line after a comma |
| TsLayout.EmitFormatLayout | gotypes/ts/source.go:126-153 | a one-line format writes its text with each placeholder replaced by the argument's layout |
| TsLayout.EmitStatementsFrom | gotypes/ts/source.go:110-120 | the statements after the first each start after the blank lines and the indentation |
| TsLayout.EmitStatementsLayout | gotypes/ts/source.go:110-120 | a statement group writes its pieces joined by blank lines and indentation |
| TsLayout.ImportHeader | gotypes/ts/source.go:216-222 | no header without imports |
| TsLayout.WriteImportLinesText | gotypes/ts/source.go:218-220 | the import loop writes one `import { name } from "module";` line per import |
| TsLayout.AfterImportsHeader | gotypes/ts/source.go:216-222 | after the import block the writer holds the header, at the start of a line exactly when there were imports |
| TsLayout.RenderLayout | gotypes/ts/source.go:204-226 | `toString` of a printable source is the import header followed by its layout |
| TsLayout.SingleImportHeader | gotypes/ts/source.go:216-222 | a single import gives its import line and a blank line |
| TsLayout.FormatTwoLayout | gotypes/ts/source.go:126-153 | a format `%s<mid>%s` lays out as the first argument, `mid`, the second |
| TsLayout.FormatPairLayout | gotypes/ts/source.go:126-153 | the same for any format that cuts as `%s<mid>%s` |
| TsLayout.BracedLayout | gotypes/ts/source.go:83-106 | the layout of a braced group: empty, single-line under the threshold, one element per line from it on |
| TsLayout.InvokeFunctionLayout | gotypes/ts/ts.go:77-79 | a call lays out as the callee followed by its argument list |
| TsLayout.JuxtaposeLayout | gotypes/ts/ts.go:77-79 | juxtaposed sources lay out one after the other |
| TsLayout.MemberLayout | gotypes/ts/ts.go:83-85 | `receiver.name` |
| TsLayout.InvokeMethodLayout | gotypes/ts/ts.go:83-85 | `receiver.name(args)` |
| TsLayout.PropertyLayout | gotypes/ts/ts.go:106-114 | `key: value` with the key bare or quoted |
| TsLayout.DocLineText | gotypes/ts/ts.go:51-57 | a comment line without a line break stays one line |
| TsLayout.DocCommentLayout | gotypes/ts/ts.go:44-59 | a non-empty doc comment is `/**`, one ` * ` line per line of the trimmed comment, and ` */` |
| TsLayout.SplitLinesFree | gotypes/ts/ts.go:51 | the lines of a comment hold no line break |
| TsLayout.ThreeStatements | gotypes/ts/ts.go:136-138 | three statements with a block in the middle lay out on consecutive lines |
| TsLayout.DocLinesLayout | gotypes/ts/ts.go:51-57 | the comment lines form one statement group laid out line by line |
| TsLayout.StatementsLayoutIs | gotypes/ts/source.go:110-120 | a statement group lays out as its pieces joined by blank lines and indentation |
| TsLayout.DocLinesText | gotypes/ts/ts.go:51-57 | the comment lines from `i` on, each indented and ended by a line break |
| Zod.Schema.Brand | gotypes/zod/zod_any_type.go:13-15 | `.brand("…")` on the source; numbers, arrays, objects and branded schemas keep their kind underneath, and every other schema, strings included, is branded as its plain node |
| Zod.Schema.Nullable | gotypes/zod/zod_any_type.go:17-19 | `.nullable()` always adds a nullable layer over the plain schema |
| Zod.Schema.Optional | gotypes/zod/zod_any_type.go:21-23 | `.optional()` adds an optional layer over the plain schema |
| Zod.Schema.Parsef | gotypes/zod/zod_any_type.go:29-31 | panics exactly when `Sourcef` does, else parses the formatted source |
| Zod.Schema.Transformf | gotypes/zod/zod_any_type.go:41-43 | panics exactly when `Sourcef` does, else transforms by the formatted source |
| Zod.Schema.DeclaredAs | gotypes/zod/zod_any_type.go:46-48 | the schema renders as the name; numbers, strings, arrays and objects keep their kind (numbers their flags, objects their shape), brands stay on top; plain, nullable and optional schemas become a plain schema |
| Zod.Schema.Int | gotypes/zod/zod_number.go:18-20 | `.int()` sets the integer flag and keeps the non-negative flag |
| Zod.Schema.NonNegative | gotypes/zod/zod_number.go:22-24 | `.nonnegative()` sets the non-negative flag and keeps the integer flag |
| Zod.Schema.Length | gotypes/zod/zod_array.go:17-19 | `.length(n)` keeps an array schema |
| Zod.Schema.UUID | gotypes/zod/zod_string.go:13-15 | `.uuid()` keeps a string schema |
| Zod.Schema.Extend | gotypes/zod/zod_object.go:22-24 | the shape grows by the new properties, at the end |
| Zod.Schema.Merge | gotypes/zod/zod_object.go:26-28 | the shape grows by the other object's shape |
| Zod.Schema.Unwrap | gotypes/zod/zod_branded.go:17-19 | the wrapped schema, which is smaller |
| Zod.ShapeTypeScript | gotypes/zod/zod_object.go:39-41 | an object literal with one `name: schema` property per shape entry, in order, with keys chosen by the corrected identifier test |
| Zod.NullableOf | gotypes/zod/zod.go:96-98 | `z.nullable(…)` wraps exactly the given schema |
| Zod.EnsureNullable | gotypes/zod/zod.go:111-116 | a nullable schema is returned as it is; any other gets `.nullable()` |
| Zod.StripNullable | gotypes/zod/zod.go:124-130 | the result has no nullable layer on top, and the flag says whether one was removed |
| Zod.Number | gotypes/zod/zod.go:132-134 | a number schema with neither refinement set |
| Zod.Object | gotypes/zod/zod.go:136-138 | an object schema holding exactly the shape |
| Zod.UnionMembers | gotypes/zod/zod.go:148-150 | the members' sources, in order |
| Zod.ZodTypeExpr | gotypes/zod/zod.go:157-159 | a schema that renders as the given expression |
| Zod.SchemaAndTypeDeclaration.TypeScript | gotypes/zod/zod.go:170-176 | three statements: the doc comment, the `const` declaration of the schema and the `type` declaration; the text they print is `ZodLaws.DeclarationLayout` |
| Zod.ConstStatementSourcef | gotypes/zod/zod.go:172 | the const statement is a well-formed `Sourcef` call, which never panics |
| Zod.TypeStatementSourcef | gotypes/zod/zod.go:173 | the type statement is a well-formed `Sourcef` call, which never panics |
| Zod.NewSchemaAndTypeDeclaration | gotypes/zod/zod.go:179-181 | the declaration keeps comment, name and schema |
| ZodLaws.EnsureNullableIdempotent | gotypes/zod/zod.go:111-116 | `EnsureNullable` is idempotent and leaves `z.nullable(…)` alone |
| ZodLaws.NullableAddsLayer | gotypes/zod/zod.go:96-98 | `.nullable()` adds a layer even on a nullable schema; `z.nullable(t)` wraps `t` |
| ZodLaws.StripNullableIdempotent | gotypes/zod/zod.go:124-130 | a second strip removes nothing |
| ZodLaws.StripEnsureNullable | gotypes/zod/zod.go:111-130 | after `EnsureNullable`, stripping reports a layer and gives back the stripped input |
| ZodLaws.StripNullableLayers | gotypes/zod/zod.go:124-130 | stripping removes every nullable layer, however many were added |
| ZodLaws.DeclaredAsRendersName | gotypes/zod/zod_branded.go:22-25 | a declared schema renders as its name, through any number of brands |
| ZodLaws.ConstStatementLayout | gotypes/zod/zod.go:173 | `export const N = <schema>;` on one line |
| ZodLaws.TypeStatementLayout | gotypes/zod/zod.go:174 | `export type N = z.infer<typeof N>;` on one line |
| ZodLaws.DeclarationLayout | gotypes/zod/zod.go:170-176 | at the top level a declaration prints the doc-comment block (one ` * ` line per line of the trimmed comment), then `export const N = <schema>;` and `export type N = z.infer<typeof N>;` on their own lines; a blank comment prints as an empty line before them |
| ZodLaws.DeclaredAsKeepsBrandsAndKind | gotypes/zod/zod_branded.go:22-25 | declaring keeps the brands and the kind beneath them |
| ZodLaws.BrandOnTop | gotypes/zod/zod_branded.go:13-15 | branding puts the new brand on top, keeping earlier brands only for kinds that brand themselves |
| ZodLaws.ShapeGrowth | gotypes/zod/zod_object.go:22-28 | extending twice is extending once by both; merging is extending by the other shape |
| ZodLaws.NumberFlags | gotypes/zod/zod_number.go:18-37 | the refinements set their flags in either order, and declaring keeps them |
| ZodLaws.RenderZod | gotypes/zod/zod_test.go:62-66 | every schema renders as the import of `z`, a blank line, and its layout |
| ZodLaws.RenderPrimitives | gotypes/zod/zod_test.go:14-29 | `z.any()`, `z.boolean()`, `z.number()`, `z.string()` |
| ZodLaws.RenderArrayOfString | gotypes/zod/zod_test.go:15 | `z.array(z.string())` |
| ZodLaws.RenderLiteral | gotypes/zod/zod_test.go:17 | `z.literal("foo")` |
| ZodLaws.RenderRefinements | gotypes/zod/zod_test.go:19-30 | `z.number().int()` and `z.string().uuid()` |
| ZodLaws.RenderEmptyObject | gotypes/zod/zod_test.go:20 | `z.object({})` |
| ZodLaws.RenderObjectOne | gotypes/zod/zod_test.go:21 | `z.object({ foo: z.string() })` on one line |
| ZodLaws.RenderObjectTwo | gotypes/zod/zod_test.go:22-28 | two properties, one per line |
| ZodLaws.RenderUnionZeroOne | gotypes/zod/zod_test.go:31-32 | `z.union([])` and `z.union([z.string()])` |
| ZodLaws.RenderUnionTwo | gotypes/zod/zod_test.go:33-36 | two members, one per line |
| ZodLaws.RenderDiscriminatedUnion | gotypes/zod/zod_test.go:37-43 | `z.discriminatedUnion("foo", [` with one member per line |
| ZodLaws.RenderNullable | gotypes/zod/zod_test.go:45-47 | one nullable layer, written three ways |
| ZodLaws.RenderNullableNullable | gotypes/zod/zod_test.go:49-51 | `.nullable()` on a nullable schema adds a second layer |
| ZodLaws.RenderNullableOfNullable | gotypes/zod/zod_test.go:53-55 | `z.nullable(…)` adds a layer as well |
| ZodLaws.RenderEnsureNullable | gotypes/zod/zod_test.go:57-59 | `EnsureNullable` adds no layer to a nullable schema |
| ZodLaws.BracedTwoLines | gotypes/ts/source.go:98-104 | a braced group of two at its threshold puts one element per line |
| ZodLaws.ZCallLayout | gotypes/zod/z.go:9-11 | `z.<name>(<args>)`, importing `z` and what the arguments import |
| GoZodJson.FlagSegmentsSplit | gotypes/gozod/go.go:9-15 | the segments the flag loop visits are the comma-split pieces, less one final empty piece when the text is empty or ends in a comma |
| GoZodJson.FlagsAreSplitPieces | gotypes/gozod/go.go:7-17 | a non-empty flag is visited exactly when it is one of the comma-split pieces after the name |
| GoZodJson.TagHasFlag | gotypes/gozod/go.go:7-17 | `tagHasFlag` answers true exactly when the flag is among the segments after the first comma |
| GoZodJson.FlagsSkipName | gotypes/gozod/go.go:8 | a tag without a comma has no flags, and the name before the first comma is never one |
| GoZodJson.TwoFlags | gotypes/gozod/go.go:9-15 | the tag `name,a,b` carries the flags `a` and `b`, in that order |
| GoZodJson.StringOmitemptyFlags | gotypes/gozod/go.go:7-17 | the tag `,string,omitempty` carries both flags and not its empty name |
| GoZodJson.JSONPropertyName | gotypes/gozod/go_json.go:29-35 | the text of the tag before its first comma, or the Go field name when that text is empty |
| GoZodJson.FieldVisits | gotypes/gozod/go_json.go:15-24 | a field tagged `-` is skipped; an untagged embedded field is visited as an embedded type; an exported field as a property with its tag |
| GoZodJson.TopLevelVisits | gotypes/gozod/go_json.go:14-25 | at most one visit per field |
| GoZodJson.TopLevelVisitsAppend | gotypes/gozod/go_json.go:14-25 | visits follow the declaration order of the fields |
| GoZodJson.ForEachTopLevelJSONFieldAndEmbeddedType | gotypes/gozod/go_json.go:9-27 | the loop over the fields makes exactly the visits `TopLevelVisits` lists, in order |
| GoZodJson.DashTags | gotypes/gozod/go_json.go:17-23 | the tag `-` hides a field, while `-,` names its property `-` |
| GoZodConfig.PlainRef | gotypes/gozod/zod_type_builder.go:29-31 | a reference to the type without the `omitempty` flag |
| GoZodRules.KeyRef | gotypes/gozod/zod_type_builder.go:45 | a map's key type as a plain reference, smaller than the map; panics for other kinds |
| GoZodRules.ElemRef | gotypes/gozod/zod_type_builder.go:46 | the element type as a plain reference, which drops the flag; panics for kinds without elements |
| GoZodRules.DistributeFlagsTo | gotypes/gozod/zod_type_builder.go:48-50 | each type gets the `omitempty` flag of the reference |
| GoZodConfig.SchemaCallback.Build | gotypes/gozod/config.go:72-83 | a constant schema ignores the resolver; a formatted one panics exactly when `Sourcef` does, else wraps the formatted source |
| GoZodConfig.ArgRefs | gotypes/gozod/config.go:185-195 | the references `Transformf` resolves: one per type or reference argument |
| GoZodConfig.FillArgs | gotypes/gozod/config.go:185-195 | panics exactly on an unsupported argument; otherwise one source per argument, a source argument kept as it is |
| GoZodConfig.ArgRefsAppend | gotypes/gozod/config.go:185-195 | arguments before any unsupported one contribute their references independently of what follows |
| GoZodConfig.ArgRefsAt | gotypes/gozod/config.go:185-195 | a type or reference argument with no unsupported argument before it is resolved at the position given by the number of references before it: a type as its plain reference, a reference as itself |
| GoZodConfig.FillArgsResolved | gotypes/gozod/config.go:185-195 | a type or reference argument is replaced by the TypeScript source of the schema resolved at the position given by the number of references before it |
| GoZodConfig.TransformCallback.Build | gotypes/gozod/config.go:121-132 | a constant transform ignores the resolver; `Transformf`'s callback panics on an unsupported argument, else formats the filled arguments |
| GoZodConfig.CommentsLoader.Load | gotypes/goinsp/parsing/comments/comments.go:64 | a type the loader does not know has the empty comment |
| GoZodConfig.WithSchema | gotypes/gozod/config.go:81-83 | sets the type's schema entry to the constant callback |
| GoZodConfig.WithTransform | gotypes/gozod/config.go:130-132 | sets the type's transform entry to the constant callback |
| GoZodConfig.ApplyAllAppend | gotypes/gozod/config.go:36-40 | applying a list of options is applying its halves in turn |
| GoZodConfig.LaterOptionOverrides | gotypes/gozod/config.go:54-132 | a later option for the same entry overrides an earlier one, whatever came before |
| GoZodConfig.OverwritesEntry | gotypes/gozod/config.go:54-132 | two options for the same entry, applied in turn, act as the second alone |
| GoZodConfig.WithDefaultLoader | gotypes/gozod/config.go:41-43 | the default comments loader is installed exactly when no option set one |
| GoZodConfig.ApplyOption | gotypes/gozod/config.go:145-149 | `apply` of an option, with type options applied one by one, is `Apply` |
| GoZodConfig.NewConfig | gotypes/gozod/config.go:36-45 | the options are applied in order to the empty configuration, then the default loader fills a missing one |
| GoZodConfig.TypeOptions.Add | gotypes/gozod/config.go:167-169 | the receiver's options followed by the new ones, for the same type |
| GoZodConfig.TypeOptions.Unnamed | gotypes/gozod/config.go:151-153 | adds `WithUnnamedType` for the type |
| GoZodConfig.TypeOptions.Schema | gotypes/gozod/config.go:155-157 | adds `WithSchema` for the type |
| GoZodConfig.TypeOptions.ResolvingSchema | gotypes/gozod/config.go:159-161 | adds `WithResolvingSchema` for the type |
| GoZodConfig.TypeOptions.Template | gotypes/gozod/config.go:163-165 | adds `WithTemplate` for the type |
| GoZodConfig.TypeOptions.Named | gotypes/gozod/config.go:171-173 | adds `WithName` for the type |
| GoZodConfig.TypeOptions.ResolvingTransform | gotypes/gozod/config.go:175-177 | adds `WithResolvingTransform` for the type |
| GoZodConfig.TypeOptions.Transform | gotypes/gozod/config.go:179-181 | adds `WithTransform` for the type |
| GoZodConfig.TypeOptions.Transformf | gotypes/gozod/config.go:183-198 | adds a resolving transform that formats the arguments |
| GoZodConfig.TypeOptions.UndiscriminatedUnionOf | gotypes/gozod/config.go:200-202 | the type options with `WithUndiscriminatedUnion` added |
| GoZodConfig.AddApplies | gotypes/gozod/config.go:145-169 | applying added options is applying the earlier options, then the new ones |
| GoZodConfig.NamedApplies | gotypes/gozod/config.go:171-173 | after `Named(n)` the names table maps the type to `n` |
| GoZodConfig.ForType | gotypes/gozod/config.go:204-206 | no options yet, for the given type |
| GoZodConfig.WhenGeneric | gotypes/gozod/config.go:212-218 | over the corrected projection: the options of the type constructor, panicking exactly when the type is not generic |
| GoZodConfig.WhenGenericAsWritten | gotypes/gozod/config.go:212-218 | as written: panics exactly when the type is not generic or is a map type without `[` in its name (the projection panics), and otherwise agrees with `WhenGeneric` |
| GoZodConfig.LookupConfig | gotypes/gozod/config.go:226-232 | over the corrected projection: the entry for the type itself, else the entry for its type constructor, else none |
| GoZodConfig.LookupConfigAsWritten | gotypes/gozod/config.go:226-232 | as written: panics exactly for a map type without `[` in its name and without an entry of its own, and otherwise agrees with `LookupConfig` |
| GoZodConfig.UnconfiguredMapLookupPanics | gotypes/gozod/config.go:229 | an unconfigured map type such as `map[string]int` panics in the lookup as written, where the corrected lookup finds no entry |
| GoZodConfig.LookupNonGeneric | gotypes/gozod/config.go:226-232 | a non-generic type is looked up under itself alone |
| GoZodConfig.InstancesShareConstructorEntry | gotypes/gozod/config.go:226-232 | two instances of one generic type without entries of their own get the same configuration |
| GoZodRules.Name | gotypes/gozod/zod_type_builder.go:91-103 | an `omitempty` reference has no name; a configured name wins; otherwise the type is named after itself unless it is configured as unnamed or has no package path |
| GoZodRules.NameOrigin | gotypes/gozod/zod_type_builder.go:91-103 | every name comes either from the configuration or from the type's own name, and a self-named type has a package path |
| GoZodRules.ConfiguredNameWins | gotypes/gozod/zod_type_builder.go:96-98 | a configured name applies even to a type that is configured as unnamed or has an empty package path |
| GoZodRules.ShouldBrand | gotypes/gozod/zod_type_builder.go:105-132 | a schema is branded exactly when no schema, union, discriminated union or transform override is configured for the type and the schema is not an object underneath its branded, nullable and optional wrappers (all of which the structural `case zod.ZodBranded` unwraps) |
| GoZodRules.BrandKeepsObjectness | gotypes/gozod/zod_type_builder.go:120-129 | branding a kind that brands itself keeps the object decision; branding any other kind gives a plain node, which is no object |
| GoZodRules.NullableObjectPeels | gotypes/gozod/zod_type_builder.go:120-129 | `z.nullable(object)` counts as an object under its wrapper, while `object.nullable()` and `object.optional()` wrap the plain node and do not |
| GoZodRules.ScalarSchema | gotypes/gozod/zod_type_builder.go:160-169 | `bool` maps to `z.boolean()`; signed integers map to an integer number schema that is not non-negative; unsigned integers map to a non-negative integer one; floats map to `z.number()` |
| GoZodRules.ScalarSources | gotypes/gozod/zod_type_builder.go:164-167 | integer schemas render `.int()` last, after `.nonnegative()` for unsigned kinds |
| GoZodRules.PointerBase | gotypes/gozod/zod_type_builder.go:304-305 | following `Elem` from a type yields, when it ends, a type that is not a pointer |
| GoZodRules.KindSupportsJSONStringFlag | gotypes/gozod/zod_type_builder.go:298-315 | never diverges; returns exactly when the pointer base has a known kind (otherwise it panics), and then answers true exactly for scalar kinds and `string` |
| GoZodRules.SchemaForNilableType | gotypes/gozod/zod_type_builder.go:387-393 | an `omitempty` reference keeps the schema; otherwise the result is nullable, and an already-nullable schema is kept as it is |
| GoZodRules.NilableTwice | gotypes/gozod/zod_type_builder.go:387-393 | the nullable wrapper is idempotent |
| GoZodRules.TransformText | gotypes/zod/zod_any_type.go:41-43 | `Transformf` with a placeholder-free format and no arguments returns, and gives a plain `.transform(...)` with that text |
| GoZodRules.SliceSchema | gotypes/gozod/zod_type_builder.go:189-211 | a base64 slice is a nilable string transformed by `a => a ?? ""`; any other slice is a nilable array transformed by `a => a ?? []` |
| GoZodRules.MapSchema | gotypes/gozod/zod_type_builder.go:175-186 | a map is a nilable record of its key and element schemas, transformed by `r => r ?? {}` |
| GoZodRules.OmitemptyKeepsTransform | gotypes/gozod/zod_type_builder.go:198-210 | with `omitempty` only the nullable wrapper is left off; the homogenizing transform stays |
| GoZodRules.JSONParsePipe | gotypes/gozod/zod_type_builder.go:284 | the `string` flag's schema is `z.string().transform(s => JSON.parse(s)).pipe(inner)` |
| GoZodRules.StringFlagged | gotypes/gozod/zod_type_builder.go:281-288 | the pipe is built on the schema with its nullable layer stripped, and the result is nullable exactly when the input was |
| GoZodRules.FieldSchema | gotypes/gozod/zod_type_builder.go:278-296 | `omitempty` puts `.optional()` last; the `nullable` flag makes the schema nullable; the `string` flag alone gives the pipe; with no flags the resolved schema is kept |
| GoZodRules.OmitemptyAfterNullable | gotypes/gozod/zod_type_builder.go:289-294 | `.optional()` wraps the nullable schema, not the other way round |
| GoZodRules.StringFlagKeepsOneNullable | gotypes/gozod/zod_type_builder.go:281-291 | for an already-nullable schema, the `nullable` flag adds no second layer after the `string` flag |
| GoZodRules.RefString | gotypes/gozod/zod_type_builder.go:37-43 | a reference prints as its type, followed by ` (with the JSON omitempty flag)` when it is flagged |
| GoZodRules.GoQuote | gotypes/gozod/zod_type_builder.go:84 | a package path without quotes or backslashes prints between double quotes |
| GoZodRules.DeclarationHead | gotypes/gozod/zod_type_builder.go:84 | the doc comment's sentence starts with the declared name and ends in a period and a newline |
| GoZodRules.DeclarationComment | gotypes/gozod/zod_type_builder.go:84-87 | without a Go comment the doc comment is just that sentence; with one, the fixed heading and the Go comment follow the sentence |
| GoZodMapper.Observe | gotypes/gozod/resolver.go:24-28 | the observed depth becomes the larger of the two depths, and the dependencies become the union of both sets |
| GoZodMapper.ObserveGrows | gotypes/gozod/resolver.go:22-30 | folding in an observation loses neither what was observed before nor the new observation |
| GoZodMapper.ObserveCommutes | gotypes/gozod/resolver.go:22-30 | the order in which two resolutions are observed does not change the result |
| GoZodMapper.ObserveWellAccounted | gotypes/gozod/resolver.go:22-30 | when both observations name only declared, shallower dependencies, so does their fold |
| GoZodMapper.ProgressedTransitive | gotypes/gozod/mapper.go:54-55 | the ways a resolution may change the mapper (more declarations, more cached inputs, more observed) compose |
| GoZodMapper.WellAccountedGrows | gotypes/gozod/mapper.go:54-55 | an accounting stays valid when declarations are added |
| GoZodMapper.AddEntry | gotypes/gozod/mapper.go:49-55 | storing a valid entry under an unused identifier keeps every entry valid and changes no earlier entry |
| GoZodMapper.DependenciesAreShallower | gotypes/gozod/mapper.go:49-53 | every dependency of a stored declaration is itself declared, strictly shallower, and so never the declaration itself |
| GoZodMapper.CachedStep | gotypes/gozod/mapper.go:59-63 | after one more input is resolved, every named input up to and including it is cached |
| GoZodMapper.Mapper.constructor | gotypes/gozod/mapper.go:25-31 | a new mapper has an empty cache and no declarations |
| GoZodMapper.Mapper.Resolve | gotypes/gozod/mapper.go:33-57 | a cached input returns its stored reference and changes nothing. Otherwise, a named input is declared under its name, with the observed accounting, and cached; its reference is the declared name and depends on that name alone, one level deeper. Declarations and the cache only grow. Every returned accounting names declared, shallower dependencies |
| GoZodMapper.Mapper.Store | gotypes/gozod/mapper.go:41-56 | a build without a declaration is returned with its observed accounting and stores nothing; a declaration under a taken identifier panics; otherwise exactly one entry and one cache line are added, so no cached input changes its identifier |
| GoZodMapper.Mapper.ResolveAll | gotypes/gozod/mapper.go:59-63 | once all inputs are resolved, every named input is cached; no earlier declaration changes and no cached input changes its identifier |
| GoZodMapper.NewMapper | gotypes/gozod/zod_type_builder.go:54-56 | the mapper's configuration is made from the given options, with the default comments loader, and its tables start empty |
| GoZodMapper.AccountingResolver.constructor | gotypes/gozod/resolver.go:18-20 | a new resolver has observed nothing |
| GoZodMapper.AccountingResolver.Resolve | gotypes/gozod/resolver.go:22-30 | the mapper's value is returned unchanged and its accounting is folded into what the resolver observed: a cached input gives its stored reference and adds exactly that accounting, and a named input, cached or freshly declared, gives the reference of its declaration and adds that reference's accounting |
| GoZodMapper.FieldNames | gotypes/gozod/zod_type_builder.go:248-253 | the property names of a walk over the fields, in order, one per property field |
| GoZodMapper.VisitsStep | gotypes/gozod/zod_type_builder.go:233-236 | each visit adds its name or its embedded type at the end |
| GoZodMapper.ShapeNamesAppend | gotypes/zod/zod_object.go:22-24 | the names of two concatenated shapes are the names of the first shape followed by those of the second |
| GoZodMapper.DiscriminatorProperties | gotypes/gozod/zod_type_builder.go:226-228 | a configured discriminator contributes exactly one property, `<property>: z.literal(<value>)`; otherwise none |
| GoZodMapper.AddProperties | gotypes/gozod/zod_type_builder.go:241-247 | the result is an object whose shape is the existing object's shape (or nothing) followed by the pending properties |
| GoZodMapper.FirstValueField | gotypes/gozod/zod_type_builder.go:216-222 | the first position whose field carries the `gotypes:"value"` flag: that field has it and no earlier one does |
| GoZodMapper.ValueField | gotypes/gozod/zod_type_builder.go:216-222 | returns the first field with the `gotypes:"value"` flag, or none when no field has it |
| GoZodMapper.CountVisits | gotypes/gozod/zod_type_builder.go:230-236 | reports whether any property field exists, counts the embedded types, and returns the last of them |
| GoZodMapper.FinishShape | gotypes/gozod/zod_type_builder.go:269-272 | the final object holds the shape collected so far, and is just the pending properties when nothing was embedded |
| GoZodMapper.ZodTypeBuilder.Build | gotypes/gozod/zod_type_builder.go:68-89 | a declaration is made exactly for a named reference, under that name, and the schema is returned as the declared name |
| GoZodMapper.ZodTypeBuilder.BuildSchema | gotypes/gozod/zod_type_builder.go:69-76 | with no template the schema is the one branding is decided on; with a template the result is an `AnyType` transform, and the template accepts the schema |
| GoZodMapper.ZodTypeBuilder.Declare | gotypes/gozod/zod_type_builder.go:77-88 | an unnamed reference declares nothing. A named one declares the schema, branded exactly when `shouldBrand` holds on the schema before templating, with the doc comment made from the loaded Go comment |
| GoZodMapper.ZodTypeBuilder.BuildRawSchema | gotypes/gozod/zod_type_builder.go:134-276 | a constant configured schema is returned as it is; an undiscriminated union has one member per configured type; a text marshaler without a template is `z.string()`; scalar kinds get their scalar schema; the other kinds follow the kind switch |
| GoZodMapper.ZodTypeBuilder.BuildConfigured | gotypes/gozod/zod_type_builder.go:135-143 | the schema callback comes first, then the union with one member per type, then the discriminated union on its property with one member per type; each member of a named type is the reference of that type's declaration |
| GoZodMapper.ZodTypeBuilder.BuildByKind | gotypes/gozod/zod_type_builder.go:170-275 | strings and interfaces give `z.string()` and `z.any()`. An array is `z.array(elem).length(len)`, a map the map schema of its key and element, a pointer the nilable element, and a slice the base64 string or the nilable array of its element, every one of these resolved as declared. A struct gives what `BuildStruct` states: the value field's schema, the single embedded type's schema, or the discriminator-first object. Complex, channel, function, unsafe-pointer and invalid kinds panic |
| GoZodMapper.ZodTypeBuilder.BuildArray | gotypes/gozod/zod_type_builder.go:170-171 | an array is the array schema, with the array's length, of its element type resolved as declared (a named reference yields the `Reference` schema of the declaration recorded for it) |
| GoZodMapper.ZodTypeBuilder.BuildMap | gotypes/gozod/zod_type_builder.go:175-186 | a map is the map schema of its key type and its element type, both resolved as declared (a named reference yields the `Reference` schema of the declaration recorded for it) |
| GoZodMapper.ZodTypeBuilder.BuildPointer | gotypes/gozod/zod_type_builder.go:187-188 | a pointer is its element type, resolved as declared (a named reference yields the `Reference` schema of the declaration recorded for it), under the nullable wrapper |
| GoZodMapper.ZodTypeBuilder.BuildSlice | gotypes/gozod/zod_type_builder.go:189-211 | a byte slice that marshals as base64 is the nilable string schema; any other slice is the nilable array schema of its element type resolved as declared (a named reference yields the `Reference` schema of the declaration recorded for it) |
| GoZodMapper.ZodTypeBuilder.Discriminator | gotypes/gozod/zod_type_builder.go:226-228 | a struct gets at most one discriminator property |
| GoZodMapper.ZodTypeBuilder.BuildStruct | gotypes/gozod/zod_type_builder.go:214-272 | with a `gotypes:"value"` field, the result is the field schema of the first such field's type, resolved as declared (a named reference yields the `Reference` schema of the declaration recorded for it) with the field's `omitempty` flag; when the struct's only JSON content is one embedded type, it is that type resolved as declared (a named reference yields the `Reference` schema of the declaration recorded for it); otherwise the result is an object that starts with the discriminator. Without embedded types, its property names are the discriminator's followed by the JSON field names, in field order |
| GoZodMapper.ZodTypeBuilder.WalkStep | gotypes/gozod/zod_type_builder.go:248-267 | one visit of the second walk: a property field appends exactly one property under its JSON name; an embedded type leaves no pending properties and an object whose shape starts with everything collected so far; the object-prefix and names-so-far invariants are kept |
| GoZodMapper.ZodTypeBuilder.BuildShape | gotypes/gozod/zod_type_builder.go:241-272 | the result is an object that starts with the initial properties; without embedded types its names are the initial ones followed by the field names |
| GoZodMapper.ZodTypeBuilder.ResolveProperty | gotypes/gozod/zod_type_builder.go:249-253 | a property keeps its JSON name, and its schema is the field schema of the field type resolved as declared (a named reference yields the `Reference` schema of the declaration recorded for it) with the tag's `omitempty` flag |
| GoZodMapper.ZodTypeBuilder.MergeEmbedded | gotypes/gozod/zod_type_builder.go:254-267 | the embedded type is resolved as declared (a named reference yields the `Reference` schema of the declaration recorded for it); a non-object embedded schema panics; otherwise the result is the embedded object, or the object collected so far merged with it, and its shape starts with everything collected so far |
| GoZodMapper.ZodTypeBuilder.ResolveFieldSchema | gotypes/gozod/zod_type_builder.go:278-296 | the result is the field schema of the type, resolved as declared (a named reference yields the `Reference` schema of the declaration recorded for it) with its `omitempty` flag, and it is optional when the JSON tag says `omitempty` |
| GoZodMapper.ZodTypeBuilder.ResolveEach | gotypes/gozod/util.go:21-27 | one schema per reference, in order: schema i of a named reference `refs[i]` is the reference of the declaration that `refs[i]` is cached under |
| GoZodMapper.ZodTypeBuilder.RunSchemaCallback | gotypes/gozod/config.go:72-83 | a constant schema callback gives its schema; any other callback gives its build on one resolved schema per dependency, a named dependency giving its declaration's reference |
| GoZodMapper.ZodTypeBuilder.RunTransformCallback | gotypes/gozod/config.go:121-132 | a constant transform gives its expression; any other transform gives its build on one resolved schema per dependency, a named dependency giving its declaration's reference |
| GoZodTemplating.Embedding.RegexString | gotypes/gozod/string_templating.go:24-43 | a string embeds as `.*`; a number embeds as digits, with an optional fraction unless it is an integer, and an optional minus sign unless it is non-negative |
| GoZodTemplating.Embedding.Parse | gotypes/gozod/string_templating.go:45-47 | a string embedding keeps the captured source as it is |
| GoZodTemplating.NumberParse | gotypes/gozod/string_templating.go:35-37 | a number embedding parses `Number(<capture>)` with its schema's `parse` method, and that `Parsef` call does not panic |
| GoZodTemplating.NonNegativeIntRegex | gotypes/gozod/string_templating.go:24-33 | a non-negative integer embeds as plain `\d+`; a plain number embeds as `-?\d+(?:\.\d+)?` |
| GoZodTemplating.PeelWrappers | gotypes/gozod/string_templating.go:51-52 | the schema under all its branded, nullable and optional wrappers has no wrapper left, and a schema without one is returned as it is |
| GoZodTemplating.ResolveEmbedding | gotypes/gozod/string_templating.go:49-60 | never diverges; embeds exactly the schemas that are numbers or strings under their branded, nullable and optional wrappers (everything else panics), and a number embedding carries the unwrapped number |
| GoZodTemplating.BrandedEmbeddings | gotypes/gozod/string_templating.go:49-60 | a branded number embeds as the number; a branded string panics, because the brand wraps the schema's plain node rather than a string schema |
| GoZodTemplating.NullableEmbeddings | gotypes/gozod/string_templating.go:49-60 | `z.nullable(z.number())` embeds its number, while `z.number().nullable()` and an optional over a nullable wrap a plain node and panic |
| GoZodTemplating.QuoteMeta | gotypes/gozod/string_templating.go:84 | text without regex metacharacters is left unchanged, and quoting never shortens text |
| GoZodTemplating.QuoteMetaRoundTrip | gotypes/gozod/string_templating.go:84 | reading the quoted text back, with each backslash standing for the character after it, gives the original text |
| GoZodTemplating.ScalarTemplate | gotypes/gozod/string_templating.go:79-85 | returns exactly when the schema embeds and the template has a `{}`. The regex is then the quoted text before the first `{}`, one capture group of the embedding, and the quoted text after it; the value is the embedding's parse of `match[1]` |
| GoZodTemplating.ScalarTemplateFirstPlaceholder | gotypes/gozod/string_templating.go:80 | no `{}` stands before the one the template uses |
| GoZodTemplating.VersionStringTemplate | gotypes/gozod/string_templating.go:75-86 | the string template `v{}` gives the regex `v(.*)` and the value `match[1]` |
| GoZodTemplating.Alternatives | gotypes/gozod/string_templating.go:91 | the placeholder pattern has one alternative per shape property, each its name, and a single empty alternative for an empty shape |
| GoZodTemplating.MatchAt | gotypes/gozod/string_templating.go:95 | an alternative taken at a position is one of the alternatives, and `{name}` stands there |
| GoZodTemplating.MatchAtNone | gotypes/gozod/string_templating.go:95 | no alternative is taken at a position exactly when no `{name}` stands there |
| GoZodTemplating.MatchAtFirst | gotypes/gozod/string_templating.go:91-95 | the alternative taken is the first one, in order, that stands there |
| GoZodTemplating.FindPlaceholder | gotypes/gozod/string_templating.go:95 | a match found from a position lies within the text, at or after that position |
| GoZodTemplating.FindPlaceholderLeftmost | gotypes/gozod/string_templating.go:95-98 | the match found is the leftmost position where a placeholder stands; none is found only when no placeholder stands anywhere further on |
| GoZodTemplating.ResolveEmbeddings | gotypes/gozod/string_templating.go:90 | returns exactly when every property embeds, and then gives each property's embedding in shape order |
| GoZodTemplating.IndexOfName | gotypes/gozod/string_templating.go:100 | the index of the first property with that name, or -1 exactly when no property has it |
| GoZodTemplating.MatchSourceFormat | gotypes/gozod/string_templating.go:105 | the source of capture group `k` is what `Sourcef("match[%s]", k)` gives, and that call does not panic |
| GoZodTemplating.Placeholders | gotypes/gozod/string_templating.go:94-108 | every piece the search finds names a shape property by its index |
| GoZodTemplating.PlaceholdersRebuild | gotypes/gozod/string_templating.go:94-108 | the pieces, each its literal text followed by `{name}` of the property it names, then the tail, make up the template again, and no placeholder stands in the tail |
| GoZodTemplating.PlaceholdersStep | gotypes/gozod/string_templating.go:95-107 | one round of the loop: a found name that is no property makes the placeholders fail; otherwise the piece before the placeholder comes first, then the placeholders of the text after it |
| GoZodTemplating.Captures | gotypes/gozod/string_templating.go:102-104 | the capture group of each property is `(`, its embedding's regex, then `)` |
| GoZodTemplating.RegexOfSnoc | gotypes/gozod/string_templating.go:99-104 | one round of the loop appends the quoted text before the placeholder and then the capture group of the property it names |
| GoZodTemplating.LastPiece | gotypes/gozod/string_templating.go:105 | the position of the last piece that names a property, or -1 exactly when no piece names it |
| GoZodTemplating.FillAllSnoc | gotypes/gozod/string_templating.go:94-105 | one round of the loop overwrites only the slot of the property it names, with that property parsing the capture numbered after all earlier ones |
| GoZodTemplating.FillAllSlot | gotypes/gozod/string_templating.go:94-105 | after the loop a slot holds its property parsing the capture of the last placeholder naming it, so a repeated placeholder keeps the last capture; a slot that no placeholder names keeps what it had |
| GoZodTemplating.FilledProperties | gotypes/gozod/string_templating.go:93-105 | starting from empty slots and capture 1, every slot is filled exactly when every property has a placeholder, and then the slots are the properties, each parsing `match[1 + j]` for the last placeholder `j` that names it |
| GoZodTemplating.ObjectTemplatePartsSpec | gotypes/gozod/string_templating.go:88-110 | the regex and the properties exist exactly when every property embeds, every placeholder names a property and every property has a placeholder; they are then the pattern of the placeholders and their properties |
| GoZodTemplating.AllFilled | gotypes/gozod/string_templating.go:93 | the output properties exist exactly when every slot is filled, and then they are the slots in order |
| GoZodTemplating.ObjectTemplate | gotypes/gozod/string_templating.go:88-110 | never diverges. It returns exactly when every property embeds, every placeholder names a property and every property has a placeholder. The regex is then the quoted text before each placeholder followed by the capture group of the property it names, in template order, then the quoted text after the last placeholder; the value is the object of those properties |
| GoZodTemplating.ObjectTemplateProperties | gotypes/gozod/string_templating.go:93-105 | the output has one property per shape property, in shape order and under its name, and property `i` parses `match[1 + j]`, where `j` is the last placeholder that names `i` |
| GoZodTemplating.SwappedPieces | gotypes/gozod/string_templating.go:94-108 | over the properties `a`, `b` the template `{b}-{a}` has the pieces (empty text, `b`) and (`-`, `a`) and an empty tail |
| GoZodTemplating.SwappedPlaceholders | gotypes/gozod/string_templating.go:88-110 | over two string properties `a`, `b` the template `{b}-{a}` gives the regex `(.*)-(.*)` and the object with `a` from `match[2]` and `b` from `match[1]`: captures are numbered in template order |
| GoZodTemplating.ObjectTemplateWithoutPlaceholders | gotypes/gozod/string_templating.go:94-109 | with an empty shape and no `{}` in the template, the regex is the quoted template and there are no properties |
| GoZodTemplating.EmptyShapeBracesPanic | gotypes/gozod/string_templating.go:91-101 | with an empty shape the pattern is an empty alternation that matches `{}`, and looking up the empty name fails, so the template panics |
| GoZodTemplating.ObjectFromTemplatedString | gotypes/gozod/string_templating.go:88-110 | the loop computes exactly the object template's regex and object |
| GoZodTemplating.TemplatedString | gotypes/gozod/string_templating.go:75-86 | an object is templated property by property; any other schema is templated as a scalar |
| GoZodTemplating.FromTemplatedString | gotypes/gozod/string_templating.go:75-86 | computes the templated string's regex and value |
| GoZodTemplating.TransformFormatPlaceholders | gotypes/gozod/string_templating.go:64-72 | the transform's format has exactly four `%s` placeholders, so its `Transformf` with four arguments does not panic |
| GoZodTemplating.TransformArgs | gotypes/gozod/string_templating.go:72 | four arguments: the regex anchored at both ends as a regex literal, the imported `z`, then the escaped template and the value source |
| GoZodTemplating.ApplyTemplateTransform | gotypes/gozod/string_templating.go:62-73 | panics exactly when the template does; otherwise gives `z.string().transform(...)` with the transform built from the anchored regex and the value source |
| GoZodDeclarations.Collect | gotypes/gozod/zod_type_builder.go:322-328 | the list a package gets holds at most one entry per visited declaration |
| GoZodDeclarations.MapDeclarationNotSimple | gotypes/gozod/zod_type_builder.go:325 | a declared map type without `[` is not simple under the corrected projection, and the projection as written panics on it |
| GoZodDeclarations.CollectElements | gotypes/gozod/zod_type_builder.go:322-328 | a declaration is in a package's list exactly when it was visited and belongs to that package (and, for the second map, has no type arguments) |
| GoZodDeclarations.CollectAll | gotypes/gozod/zod_type_builder.go:320-328 | after every declaration is visited, each package's list holds exactly that package's declarations |
| GoZodDeclarations.CollectDistinct | gotypes/gozod/zod_type_builder.go:322-328 | no declaration is listed twice |
| GoZodDeclarations.PackageKeyInjective | gotypes/gozod/zod_type_builder.go:331-342 | the package comparison is a total order: no two packages compare equal |
| GoZodDeclarations.DeclarationKeyInjective | gotypes/gozod/zod_type_builder.go:373-378 | within a package, no two declarations compare equal on depth and identifier |
| GoZodDeclarations.SortedPackagesOrder | gotypes/gozod/zod_type_builder.go:330-342 | after sorting, packages without a `.` in their path (the standard library) come first, and packages in the same group are in path order |
| GoZodDeclarations.SamePackageDependencyFirst | gotypes/gozod/zod_type_builder.go:370-378 | within a package, a declaration comes after every declaration it depends on |
| GoZodDeclarations.FirstReady | gotypes/gozod/zod_type_builder.go:345-357 | the search gives -1 or the index of a pending package |
| GoZodDeclarations.FirstReadyIsFirst | gotypes/gozod/zod_type_builder.go:345-357 | -1 exactly when no pending package is ready; otherwise a ready package with no ready package before it |
| GoZodDeclarations.PickIndex | gotypes/gozod/zod_type_builder.go:359-365 | the package taken next is one of the pending packages |
| GoZodDeclarations.PickIndexPicks | gotypes/gozod/zod_type_builder.go:359-365 | the package taken next is the first ready one; failing that, the first whose simple declarations are ready; failing that, the first pending package |
| GoZodDeclarations.Remove | gotypes/gozod/zod_type_builder.go:367 | deleting one package leaves one fewer |
| GoZodDeclarations.PackageOrder | gotypes/gozod/zod_type_builder.go:358-368 | the output order lists as many packages as there were pending |
| GoZodDeclarations.PackageOrderPermutes | gotypes/gozod/zod_type_builder.go:358-368 | the output order is a permutation of the pending packages |
| GoZodDeclarations.PackageOrderDistinct | gotypes/gozod/zod_type_builder.go:358-368 | the output order lists no package twice |
| GoZodDeclarations.PackageOrderPicksReady | gotypes/gozod/zod_type_builder.go:358-368 | at each turn when some remaining package is ready, the package taken is ready |
| GoZodDeclarations.FirstPickReady | gotypes/gozod/zod_type_builder.go:358-368 | the first package taken is ready when some package is |
| GoZodDeclarations.DependenciesFirst | gotypes/gozod/zod_type_builder.go:345-368 | when some package was ready at its turn, every dependency of a declaration in the package taken is declared, and lies in that package or in a package emitted earlier |
| GoZodDeclarations.EmitOrderHasPackage | gotypes/gozod/zod_type_builder.go:330-368 | every package with a declaration is emitted |
| GoZodDeclarations.EmittedMembers | gotypes/gozod/zod_type_builder.go:370-380 | a declaration is emitted exactly when it is in the table and its package is in the order |
| GoZodDeclarations.EmittedDistinct | gotypes/gozod/zod_type_builder.go:370-380 | with no package repeated, no declaration is emitted twice |
| GoZodDeclarations.EachDeclarationOnce | gotypes/gozod/zod_type_builder.go:317-385 | every declaration of the mapper is emitted exactly once |
| GoZodDeclarations.GroupByPackage | gotypes/gozod/zod_type_builder.go:320-328 | the first map has an entry exactly for the packages that have declarations; each package's list holds exactly its declarations, once each; the second map's lists hold exactly its declarations without type arguments, judged by the corrected projection (see "## Left out") |
| GoZodDeclarations.ReadyIndex | gotypes/gozod/zod_type_builder.go:345-357 | the search loop computes the index of the first ready package, or -1 |
| GoZodDeclarations.NextIndex | gotypes/gozod/zod_type_builder.go:359-365 | one turn of the loop takes the package the fallback rule names |
| GoZodDeclarations.OutputOrder | gotypes/gozod/zod_type_builder.go:344-368 | the loop appends the packages in the output order |
| GoZodDeclarations.Concatenate | gotypes/gozod/zod_type_builder.go:370-380 | each package's declarations, sorted by depth and then identifier, are appended group after group |
| GoZodDeclarations.SupportingDeclarations | gotypes/gozod/zod_type_builder.go:317-385 | the output is one statement group per declaration (its TypeScript), in package order and sorted within each package; a declared `[`-less map type is printed where the code panics (see "## Left out") |

## Left out

- `gotypes/gozod/tsgen.go` and the comment parsing of `gotypes/goinsp/parsing/comments` are not part of this model. The comment text for a type is an input.
- Regular expressions are text here. Nothing checks that a generated regex compiles (`regexp.MustCompile`), or what it matches at run time in JavaScript. The placeholder search of the object template models `FindStringIndex` on the one pattern the code builds.
- The JSON, SQL and YAML hooks of `Optional` and `NoneWhenZero` (`MarshalJSON`, `UnmarshalJSON`, `Scan`, `Value` and the like) and `ZeroableAsOptional` are serialization glue outside the core.
- `UtilSlices.CastElementsUnsafe`: this is not modelled. Its type assertion on every element has no counterpart in Dafny's type system.
- `When[T]()` reads the type from its type parameter by reflection. The model has only `GoZodConfig.ForType`, which takes the type descriptor as an argument. `AsNoneWhenZeros` is `Map` composed with `AsNoneWhenZero`, and both of those are modelled, so it has no member of its own.
- Struct tags are a parsed map from key to value. Go's tag syntax (`reflect.StructTag.Get`) is not modelled.
- `TypeName.String` is the identity on the name text.
- The mapper's fuel: a resolution that needs more nested builds than the fuel allows gives `Diverges`. In Go a configuration cycle (a callback, union or discriminated-union member that names the type being built) recurses until the stack overflows. Fuel bounds only that recursion. Self-referential Go types, which Go also never finishes, cannot be expressed as a finite `GoType` and are not modelled.
- `GoZodConfig.WithDiscriminatedUnion`: in Go it returns a bare `func(*config)` rather than an `Option`, and the wrapper type `funcOption` is unexported. So outside the package it cannot be passed to `NewMapper` or `newConfig`. The model treats it as an ordinary option.
- Schema and transform callbacks are data rather than arbitrary Go functions. A callback can only resolve the references it names and combine the results.
- `GoZodRules.GoQuote`: this is stated only for text without quotes or backslashes. Go's `%#v` escapes of non-printable characters are not modelled.
- `GoZodTemplating.ObjectTemplate`: a shape property without a placeholder in the template leaves a zero `ts.Property`, with no value, in the object the code returns. The model reports this case as a panic straight away.
- `GoZodDeclarations.DependenciesFirst`: a dependency outside the table is impossible in a valid table (every dependency is declared), so the model does not need the Go map's zero value for a missing name.
- `GoZodMapper.ZodTypeBuilder.BuildShape`: this states the property names only for shapes without embedded types. With embedded types it states that the result is an object that starts with the initial properties.
- `GoZodMapper.ValueField`: "none" is stated as "no field carries the `value` flag".
- `Ts.NumberLiteral`: only integer literals, because floating-point formatting is not modelled.
- `GoZodConfig.LookupConfig`: this uses the corrected projection of the first finding, so a map type without an entry of its own gives no entry. The code as written panics there (config.go:229); `GoZodConfig.LookupConfigAsWritten` models that.
- `GoZodConfig.WhenGeneric`: this uses the corrected projection, so a map type gets the options of its type constructor. The code as written panics; `GoZodConfig.WhenGenericAsWritten` models that.
- `GoZodMapper.ZodTypeBuilder.BuildRawSchema`: its lookups use the corrected `LookupConfig`, so an unconfigured map type reaches the kind switch and gets `GoZodRules.MapSchema`. The code as written panics in the lookup at zod_type_builder.go:70 and 135. The rest of the builder, and `GoZodMapper.ZodTypeBuilder.Build`, follow from that.
- `GoZodDeclarations.IsSimple`: it uses the corrected `WithoutTypeArguments`, so a declared map type without `[` in its name counts as not simple and `GoZodDeclarations.GroupByPackage` leaves it out of the simple lists. The code as written calls `WithoutTypeArguments` on every declaration at zod_type_builder.go:325 and panics there; `GoZodDeclarations.MapDeclarationNotSimple` states both. `GoZodDeclarations.CollectElements`, `GoZodDeclarations.GroupByPackage` and `GoZodDeclarations.SupportingDeclarations` follow from that, so `SupportingDeclarations` prints such a declaration where the code panics.
- `GoZodRules.Name`: its lookups in the names and unnamed-types tables use the corrected `LookupConfig`, so an unconfigured map type without `[` is named, where the code panics in the lookup (zod_type_builder.go:91-103 via config.go:229).
- `GoZodRules.ShouldBrand`: its lookups in the override tables use the corrected `LookupConfig`, so an unconfigured map type without `[` gets a branding decision, where the code panics in the lookup (zod_type_builder.go:105-132 via config.go:229).
- `Ts.Object`: its keys go through the corrected identifier test of the second finding, so the key `a-b` is quoted. The code as written prints it bare.
- `Zod.ShapeTypeScript`: it prints through `Ts.Object`, so it uses the corrected identifier test too.
- The commented-out reading of `MarshalText` doc comments in `gotypes/gozod/zod_type_builder.go` (lines 146-157) is dead code and is not modelled.

## Findings

| source | as written | input that shows it | evidently intended | confidence | as-written member | corrected member |
|---|---|---|---|---|---|---|
| gotypes/goinsp/reflective/type_constructor.go:61-83 | `newGenericType` handles slices, arrays and structs; for any other kind whose name has no `[`, it panics. `WithoutTypeArguments` sends map types there, so a configuration lookup that falls back on the type constructor panics for every map type. | the named map type `type M map[string]int` (kind `Map`, name `M`) | map types keep their base fields, as slices do, and the projection is total | not executed | GoInsp.NewGenericTypeAsWritten | GoInsp.NewGenericType |
| gotypes/ts/literals.go:16-20 | the identifier pattern `[a-zA-Z_][a-zA-Z0-9_]*` is not anchored, so any text containing a letter or `_` counts as an identifier | the property name `a-b`, printed as the bare key `a-b: ...`, which is not valid TypeScript | only whole identifiers are printed bare; other names are quoted | not executed | Ts.IsValidIdentifierAsWritten | Ts.IsValidIdentifier |

The first finding's counterexample is `GoInsp.MapProjectionPanics`, and the as-written projection is `GoInsp.WithoutTypeArgumentsAsWritten`. The corrected `GoInsp.WithoutTypeArguments` is proved idempotent (`GoInsp.WithoutTypeArgumentsIdempotent`) and to strip every type argument (`GoInsp.ProjectedNameHasNoArguments`). The lookups as written are `GoZodConfig.LookupConfigAsWritten` and `GoZodConfig.WhenGenericAsWritten`, and `GoZodConfig.UnconfiguredMapLookupPanics` shows the lookup panicking for an unconfigured map type. The rest of the model uses the corrected definitions of both findings; "## Left out" names the members that do. The second finding's counterexample is `Ts.UnanchoredIdentifierCounterexample`. The corrected `Ts.Property.AsSource` always writes either a valid identifier or a string literal (`Ts.PropertyKeyWellFormed`).
