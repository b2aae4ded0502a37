/** Category names of a major (src/utils/major.ts). */
module MajorNames {
  import opened Courses
  import Text
  import Platform

  function Suffix(kind: Platform.ChannelType): string {
    match kind
    case Chat => "-chat"
    case Voice => "-voice"
  }

  /** `getCategoryName`: the major prefix followed by `-chat` or `-voice`. */
  function GetCategoryName(major: Major, kind: Platform.ChannelType): (name: string)
    ensures Text.StartsWith(name, major.prefix)
    ensures kind == Platform.Chat ==> Text.EndsWith(name, "-chat")
    ensures kind == Platform.Voice ==> Text.EndsWith(name, "-voice")
  {
    var name := major.prefix + Suffix(kind);
    assert name[..|major.prefix|] == major.prefix;
    assert name[|name| - |Suffix(kind)|..] == Suffix(kind);
    name
  }

  /** A category name tells both the major prefix and the channel type it was made for. */
  lemma CategoryNamesDistinct(m1: Major, k1: Platform.ChannelType, m2: Major, k2: Platform.ChannelType)
    requires GetCategoryName(m1, k1) == GetCategoryName(m2, k2)
    ensures m1.prefix == m2.prefix && k1 == k2
  {
    var name := GetCategoryName(m1, k1);
    assert name == m1.prefix + Suffix(k1) && name == m2.prefix + Suffix(k2);
    assert name[|name| - 1] == Suffix(k1)[|Suffix(k1)| - 1];
    assert name[|name| - 1] == Suffix(k2)[|Suffix(k2)| - 1];
    assert name[..|name| - |Suffix(k1)|] == m1.prefix;
    assert name[..|name| - |Suffix(k2)|] == m2.prefix;
  }
}
