/**
  The two extension methods the dispatcher uses to turn a statement source into
  text: the label of an enum member, and the contents of a file.
*/
module Extensions {
  import opened Wrappers

  /** The reflection data of one enum member: its `[Description]` attributes (and those derived from it), in the order reflection returns them. */
  datatype MemberInfo = MemberInfo(descriptions: seq<string>)

  /**
    A non-null enum value: `name` is `item.ToString()` and `members` is what
    `GetType().GetMember(name)` finds (empty for a combined flags value or an
    undeclared number).
  */
  datatype EnumValue = EnumValue(name: string, members: seq<MemberInfo>)

  /** True when the first matching member carries at least one `[Description]`. */
  predicate HasDescription(e: EnumValue) {
    |e.members| > 0 && |e.members[0].descriptions| > 0
  }

  /**
    `EnumExtensions.GetDescription`: the first `[Description]` of the member,
    else the value's name; the empty string for a null item.
  */
  function GetDescription(item: Option<EnumValue>): (r: string)
    ensures item.None? ==> r == ""
    ensures item.Some? && HasDescription(item.value) ==> r == item.value.members[0].descriptions[0]
    ensures item.Some? && !HasDescription(item.value) ==> r == item.value.name
  {
    if item.None? then ""
    else
      var memInfo := item.value.members;
      if |memInfo| > 0 && |memInfo[0].descriptions| > 0 then memInfo[0].descriptions[0]
      else item.value.name
  }

  /** A value with no matching member (a combined flags value, say) is described by its name. */
  lemma UnmatchedValueUsesName(name: string)
    ensures GetDescription(Some(EnumValue(name, []))) == name
  {
  }

  /** Only the first attribute of the first matching member is consulted. */
  lemma FirstAttributeWins(name: string, d: string, rest: seq<string>, others: seq<MemberInfo>, extra: seq<string>)
    ensures GetDescription(Some(EnumValue(name, [MemberInfo([d] + rest)] + others)))
         == GetDescription(Some(EnumValue(name, [MemberInfo([d] + rest + extra)])))
         == d
  {
  }

  /**
    `StringExtensions.ReadFileContents` (and its async twin) over a file system
    given as a map from path to contents. `File.OpenText` refuses the empty
    path outright; any other path with no entry cannot be opened.
  */
  function ReadFileContents(files: map<string, string>, path: string): (r: Result<string, Error>)
    ensures r.Success? <==> path != "" && path in files
    ensures r.Success? ==> r.value == files[path]
    ensures path == "" ==> r == Failure(InvalidArgument("path"))
    ensures path != "" && path !in files ==> r == Failure(FileNotFound(path))
  {
    if path == "" then Failure(InvalidArgument("path"))
    else if path in files then Success(files[path])
    else Failure(FileNotFound(path))
  }
}
