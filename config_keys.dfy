/** The preference keys the settings are stored under, derived by joining
    resource names with `_`. Orientation and key activation live under the
    bare orientation or key name, the orientation group title under
    `orientation_title`, and each action slot under
    `orientation_key_slot`. */
module ConfigKeys {
  import opened Names

  const Separator: char := '_'

  /** The key of an orientation's switch: its bare name. */
  function OrientationString(o: Orientation): string {
    OrientationName(o)
  }

  /** The key of an orientation group's title. */
  function OrientationTitleString(o: Orientation): string {
    OrientationName(o) + "_" + TitleOrientationName
  }

  /** The key of an orientation/key pair. */
  function OrientationKeyString(o: Orientation, k: Key): string {
    OrientationString(o) + "_" + KeyName(k)
  }

  /** The key of an action slot. */
  function OrientationKeyActionString(o: Orientation, k: Key, s: Slot): string {
    OrientationKeyString(o, k) + "_" + SlotName(s)
  }

  predicate SeparatorFree(s: string) {
    forall i :: 0 <= i < |s| ==> s[i] != Separator
  }

  /** How many separators a string holds. */
  function SeparatorCount(s: string): nat {
    if |s| == 0 then 0 else SeparatorCount(s[..|s| - 1]) + (if s[|s| - 1] == Separator then 1 else 0)
  }

  lemma {:induction false} SeparatorCountConcat(a: string, b: string)
    ensures SeparatorCount(a + b) == SeparatorCount(a) + SeparatorCount(b)
    decreases |b|
  {
    if |b| == 0 {
      assert a + b == a;
    } else {
      var b' := b[..|b| - 1];
      assert (a + b)[..|a + b| - 1] == a + b';
      SeparatorCountConcat(a, b');
    }
  }

  lemma {:induction false} SeparatorFreeCount(s: string)
    requires SeparatorFree(s)
    ensures SeparatorCount(s) == 0
    decreases |s|
  {
    if |s| > 0 {
      SeparatorFreeCount(s[..|s| - 1]);
    }
  }

  /** Every resource name is free of the separator. */
  lemma NamesSeparatorFree(o: Orientation, k: Key, s: Slot)
    ensures SeparatorFree(OrientationName(o))
    ensures SeparatorFree(KeyName(k))
    ensures SeparatorFree(SlotName(s))
    ensures SeparatorFree(TitleOrientationName)
  {
    OrientationNameSeparatorFree(o);
    KeyNameSeparatorFree(k);
    SlotNameSeparatorFree(s);
  }

  lemma OrientationNameSeparatorFree(o: Orientation)
    ensures SeparatorFree(OrientationName(o))
  {
  }

  lemma KeyNameSeparatorFree(k: Key)
    ensures SeparatorFree(KeyName(k))
  {
  }

  lemma SlotNameSeparatorFree(s: Slot)
    ensures SeparatorFree(SlotName(s))
  {
  }

  /** The position of the first separator, or the length when there is
      none. */
  function FirstSeparator(s: string): (i: nat)
    ensures i <= |s|
  {
    if |s| == 0 || s[0] == Separator then 0 else 1 + FirstSeparator(s[1..])
  }

  /** Splits a key at its first separator: the inverse of joining a
      separator-free name to a rest. */
  function SplitKey(s: string): (string, string) {
    var i := FirstSeparator(s);
    if i < |s| then (s[..i], s[i + 1..]) else (s, "")
  }

  lemma {:induction false} FirstSeparatorJoin(a: string, b: string)
    requires SeparatorFree(a)
    ensures FirstSeparator(a + "_" + b) == |a|
    decreases |a|
  {
    if |a| > 0 {
      assert (a + "_" + b)[1..] == a[1..] + "_" + b;
      FirstSeparatorJoin(a[1..], b);
    }
  }

  lemma SplitJoin(a: string, b: string)
    requires SeparatorFree(a)
    ensures SplitKey(a + "_" + b) == (a, b)
  {
    FirstSeparatorJoin(a, b);
    var x := a + "_" + b;
    assert x[..|a|] == a && x[|a| + 1..] == b;
  }

  /** Every derived key splits back into its parts: a bare orientation
      name holds no separator, a title or orientation/key key splits into
      its two names, and an action key splits into the orientation and a
      rest that splits into the key and the slot. */
  lemma KeysSplit(o: Orientation, k: Key, s: Slot)
    ensures SeparatorFree(OrientationString(o))
    ensures SplitKey(OrientationTitleString(o)) == (OrientationName(o), TitleOrientationName)
    ensures SplitKey(OrientationKeyString(o, k)) == (OrientationName(o), KeyName(k))
    ensures var r := OrientationKeyActionString(o, k, s);
            && SplitKey(r) == (OrientationName(o), KeyName(k) + "_" + SlotName(s))
            && SplitKey(SplitKey(r).1) == (KeyName(k), SlotName(s))
  {
    OrientationNameSeparatorFree(o);
    SplitJoin(OrientationName(o), TitleOrientationName);
    SplitJoin(OrientationName(o), KeyName(k));
    ActionKeySplits(o, k, s);
  }

  lemma ActionKeySplits(o: Orientation, k: Key, s: Slot)
    ensures var r := OrientationKeyActionString(o, k, s);
            && SplitKey(r) == (OrientationName(o), KeyName(k) + "_" + SlotName(s))
            && SplitKey(SplitKey(r).1) == (KeyName(k), SlotName(s))
  {
    var on, kn, sn := OrientationName(o), KeyName(k), SlotName(s);
    OrientationNameSeparatorFree(o);
    KeyNameSeparatorFree(k);
    assert OrientationKeyActionString(o, k, s) == on + "_" + (kn + "_" + sn);
    SplitJoin(on, kn + "_" + sn);
    SplitJoin(kn, sn);
  }

  /** Joining a separator-free name to anything with `_` can be undone. */
  lemma JoinInjective(a: string, b: string, c: string, d: string)
    requires SeparatorFree(a) && SeparatorFree(c)
    requires a + "_" + b == c + "_" + d
    ensures a == c && b == d
  {
    SplitJoin(a, b);
    SplitJoin(c, d);
  }

  lemma OrientationKeyStringInjective(o: Orientation, k: Key, o': Orientation, k': Key)
    requires OrientationKeyString(o, k) == OrientationKeyString(o', k')
    ensures o == o' && k == k'
  {
    NamesSeparatorFree(o, k, ShortPress);
    NamesSeparatorFree(o', k', ShortPress);
    JoinInjective(OrientationName(o), KeyName(k), OrientationName(o'), KeyName(k'));
  }

  lemma Join3Injective(a: string, b: string, c: string, a': string, b': string, c': string)
    requires SeparatorFree(a) && SeparatorFree(b) && SeparatorFree(a') && SeparatorFree(b')
    requires a + "_" + b + "_" + c == a' + "_" + b' + "_" + c'
    ensures a == a' && b == b' && c == c'
  {
    assert a + "_" + b + "_" + c == a + "_" + (b + "_" + c);
    assert a' + "_" + b' + "_" + c' == a' + "_" + (b' + "_" + c');
    JoinInjective(a, b + "_" + c, a', b' + "_" + c');
    JoinInjective(b, c, b', c');
  }

  lemma NamesInjective(o: Orientation, k: Key, s: Slot, o': Orientation, k': Key, s': Slot)
    ensures OrientationName(o) == OrientationName(o') ==> o == o'
    ensures KeyName(k) == KeyName(k') ==> k == k'
    ensures SlotName(s) == SlotName(s') ==> s == s'
  {
  }

  /** Distinct (orientation, key, slot) triples are stored under distinct
      keys. */
  lemma OrientationKeyActionStringInjective(o: Orientation, k: Key, s: Slot, o': Orientation, k': Key, s': Slot)
    requires OrientationKeyActionString(o, k, s) == OrientationKeyActionString(o', k', s')
    ensures o == o' && k == k' && s == s'
  {
    NamesSeparatorFree(o, k, s);
    NamesSeparatorFree(o', k', s');
    Join3Injective(OrientationName(o), KeyName(k), SlotName(s), OrientationName(o'), KeyName(k'), SlotName(s'));
    NamesInjective(o, k, s, o', k', s');
  }

  lemma OrientationTitleStringInjective(o: Orientation, o': Orientation)
    requires OrientationTitleString(o) == OrientationTitleString(o')
    ensures o == o'
  {
    NamesSeparatorFree(o, Home, ShortPress);
    NamesSeparatorFree(o', Home, ShortPress);
    JoinInjective(OrientationName(o), TitleOrientationName, OrientationName(o'), TitleOrientationName);
  }

  /** A title key is never an orientation/key key: the title resource is
      not a key name. */
  lemma TitleDistinctFromKeyString(o: Orientation, o': Orientation, k: Key)
    ensures OrientationTitleString(o) != OrientationKeyString(o', k)
  {
    NamesSeparatorFree(o, k, ShortPress);
    NamesSeparatorFree(o', k, ShortPress);
    if OrientationTitleString(o) == OrientationKeyString(o', k) {
      JoinInjective(OrientationName(o), TitleOrientationName, OrientationName(o'), KeyName(k));
    }
  }

  /** The number of separators tells the kinds of key apart: none in a bare
      orientation or key name, one in a title or orientation/key key, two in
      an action key. */
  lemma {:induction false} SeparatorCounts(o: Orientation, k: Key, s: Slot)
    ensures SeparatorCount(OrientationString(o)) == 0
    ensures SeparatorCount(KeyName(k)) == 0
    ensures SeparatorCount(OrientationTitleString(o)) == 1
    ensures SeparatorCount(OrientationKeyString(o, k)) == 1
    ensures SeparatorCount(OrientationKeyActionString(o, k, s)) == 2
  {
    NamesSeparatorFree(o, k, s);
    var on, kn, sn, tn := OrientationName(o), KeyName(k), SlotName(s), TitleOrientationName;
    SeparatorFreeCount(on);
    SeparatorFreeCount(kn);
    SeparatorFreeCount(sn);
    SeparatorFreeCount(tn);
    assert SeparatorCount("_") == 1 by {
      assert "_"[..0] == [];
    }
    SeparatorCountConcat(on, "_");
    SeparatorCountConcat(on + "_", tn);
    SeparatorCountConcat(on + "_", kn);
    SeparatorCountConcat(on + "_" + kn, "_");
    SeparatorCountConcat(on + "_" + kn + "_", sn);
  }

  /** An action key never collides with a key of another kind, and the bare
      orientation and key names never collide with each other. */
  lemma KindsDistinct(o: Orientation, k: Key, s: Slot, o': Orientation, k': Key)
    ensures OrientationKeyActionString(o, k, s) != OrientationString(o')
    ensures OrientationKeyActionString(o, k, s) != KeyName(k')
    ensures OrientationKeyActionString(o, k, s) != OrientationKeyString(o', k')
    ensures OrientationKeyActionString(o, k, s) != OrientationTitleString(o')
    ensures OrientationString(o) != KeyName(k)
  {
    SeparatorCounts(o, k, s);
    SeparatorCounts(o', k', s);
    var a := OrientationKeyActionString(o, k, s);
    CountsDiffer(a, OrientationString(o'));
    CountsDiffer(a, KeyName(k'));
    CountsDiffer(a, OrientationKeyString(o', k'));
    CountsDiffer(a, OrientationTitleString(o'));
    OrientationNotKeyName(o, k);
  }

  lemma CountsDiffer(a: string, b: string)
    requires SeparatorCount(a) != SeparatorCount(b)
    ensures a != b
  {
  }

  /** Orientation and key switches live under different keys. */
  lemma OrientationNotKeyName(o: Orientation, k: Key)
    ensures OrientationString(o) != KeyName(k)
  {
  }
}
