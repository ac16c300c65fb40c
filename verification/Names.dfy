/** The spelling rule shared by capability names and State namespaces. */
module Names {

  predicate Letter(c: char) { 'a' <= c <= 'z' }

  predicate Separator(c: char) { c == '.' || c == '-' }

  predicate Plain(c: char) { Letter(c) || '0' <= c <= '9' }

  /** A letter first; then letters, digits and single internal separators. */
  predicate WellSpelled(name: string)
  {
    && name != "" && Letter(name[0])
    && (forall i | 0 <= i < |name| :: Plain(name[i]) || Separator(name[i]))
    && (forall i | 0 < i < |name| :: !(Separator(name[i - 1]) && Separator(name[i])))
    && !Separator(name[|name| - 1])
  }

  /** One pass over the name with a flag for "the previous character was a separator". */
  method Scan(name: string) returns (ok: bool)
    ensures ok <==> WellSpelled(name)
  {
    if name == "" || !Letter(name[0]) {
      return false;
    }
    var separator := false;
    var i := 1;
    while i < |name|
      invariant 1 <= i <= |name|
      invariant separator <==> Separator(name[i - 1])
      invariant forall k | 0 <= k < i :: Plain(name[k]) || Separator(name[k])
      invariant forall k | 0 < k < i :: !(Separator(name[k - 1]) && Separator(name[k]))
    {
      if Plain(name[i]) {
        separator := false;
      } else if Separator(name[i]) {
        if separator {
          return false;
        }
        separator := true;
      } else {
        return false;
      }
      i := i + 1;
    }
    return !separator;
  }
}
