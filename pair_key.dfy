/** The conversation key of a pair of users: `getChatId`, which the request repository,
    the message repository and the legacy repository each define with the same body. */
module PairKey {
  import opened KotlinText

  const Separator: char := '_'

  /** `if (u1 < u2) "${u1}_$u2" else "${u2}_$u1"`. */
  function ChatId(u1: string, u2: string): string {
    if Less(u1, u2) then u1 + [Separator] + u2 else u2 + [Separator] + u1
  }

  /** The key does not depend on which of the two users is named first. */
  lemma ChatIdSymmetric(a: string, b: string)
    ensures ChatId(a, b) == ChatId(b, a)
  {
    LessAsymmetric(a, b);
    LessConnected(a, b);
  }

  /** The key is the smaller id, the separator, then the larger id. */
  lemma ChatIdCanonical(a: string, b: string)
    ensures || (ChatId(a, b) == a + [Separator] + b && !Less(b, a))
            || (ChatId(a, b) == b + [Separator] + a && Less(b, a))
  {
    LessAsymmetric(a, b);
    LessConnected(a, b);
  }

  /** For ids without the separator, the key determines the unordered pair. */
  lemma ChatIdInjective(a: string, b: string, c: string, d: string)
    requires Separator !in a && Separator !in b && Separator !in c && Separator !in d
    requires ChatId(a, b) == ChatId(c, d)
    ensures (a == c && b == d) || (a == d && b == c)
  {
    var key := ChatId(a, b);
    var x, y := if Less(a, b) then a else b, if Less(a, b) then b else a;
    var x', y' := if Less(c, d) then c else d, if Less(c, d) then d else c;
    assert key == x + [Separator] + y && key == x' + [Separator] + y';
    SubstringBeforeJoin(x, y, Separator);
    SubstringBeforeJoin(x', y', Separator);
    assert x == x';
    assert y == key[|x| + 1..] == y';
  }

  /** Ids that contain the separator can make two different pairs share one key. */
  lemma ChatIdCollision()
    ensures ChatId("a_b", "c") == ChatId("a", "b_c") == "a_b_c"
  {
    assert Less("a_b", "c");
    assert Less("a", "b_c");
  }
}
