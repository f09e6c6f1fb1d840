/**
 The worked examples of the script's usage text, stated about the model.
 */
module UsageExamples {
  import opened Decomposition
  import opened Families
  import opened Palette
  import opened Resolver

  /** The label of letters, then digits, then letters, then digits. */
  lemma LabelOfBlocks(a: string, b: string, c: string, d: string)
    requires forall i :: 0 <= i < |a| ==> IsLetter(a[i])
    requires forall i :: 0 <= i < |b| ==> IsDigit(b[i])
    requires forall i :: 0 <= i < |c| ==> IsLetter(c[i])
    requires forall i :: 0 <= i < |d| ==> IsDigit(d[i])
    ensures Label(a + b + c + d) == a + c
  {
    LabelConcat(a, b);
    LabelConcat(a + b, c);
    LabelConcat(a + b + c, d);
  }

  /** `abc32xyz1` reads as label `abcxyz` and number `321`, so member 1. */
  lemma InterleavedExample()
    ensures Decompose("abc32xyz1") == Host("abcxyz", 1)
    ensures Number("abc32xyz1") == "321"
  {
    assert "abc32xyz1" == "abc" + "32" + "xyz" + "1";
    LabelOfBlocks("abc", "32", "xyz", "1");
    MemberIsLastDigit("abc32xyz1", 8);
    assert Number("abc32xyz1") == "321" by {
      FilterConcat(IsDigit, "abc", "32");
      FilterConcat(IsDigit, "abc" + "32", "xyz");
      FilterConcat(IsDigit, "abc" + "32" + "xyz", "1");
      FilterConcat(IsDigit, "3", "2");
    }
  }

  /** `web1` and `web321` are the same host, label `web` and member 1; `web`
      on its own is member 0. */
  lemma SuffixExample()
    ensures Decompose("web1") == Decompose("web321") == Host("web", 1)
    ensures Decompose("web") == Host("web", 0)
  {
    assert "web1" == "web" + "1" + "" + "";
    assert "web321" == "web" + "321" + "" + "";
    LabelOfBlocks("web", "1", "", "");
    LabelOfBlocks("web", "321", "", "");
    MemberIsLastDigit("web1", 3);
    MemberIsLastDigit("web321", 5);
  }

  /** Whatever the salt and digest, `web1` and `web321` get one colour. */
  lemma SuffixSameColour(salt: string, digest: string -> Byte)
    ensures Resolve("web1", salt, digest) == Resolve("web321", salt, digest)
  {
    var a, b := "web1", "web321";
    assert Label(a) == Label(b) && Member(a) == Member(b) by {
      SuffixExample();
    }
    ResolveFactors(a, b, salt, digest);
  }

  /** Whatever the salt and digest, `abc32xyz1` and `abcxyz1` get one
      colour. */
  lemma InterleavedSameColour(salt: string, digest: string -> Byte)
    ensures Resolve("abc32xyz1", salt, digest) == Resolve("abcxyz1", salt, digest)
  {
    var a, b := "abc32xyz1", "abcxyz1";
    assert Label(a) == Label(b) && Member(a) == Member(b) by {
      InterleavedExample();
      assert b == "abcxyz" + "1" + "" + "";
      LabelOfBlocks("abcxyz", "1", "", "");
      MemberIsLastDigit(b, 6);
    }
    ResolveFactors(a, b, salt, digest);
  }

  /** The usage text's `web1 py->53`: the first byte of MD5 of `web` is
      0x25, which is family 10, and member 1 sits on the head 10 * 3 + 23. */
  lemma Web1Example(digest: string -> Byte)
    requires digest("web") == 0x25
    ensures Resolve("web1", "", digest) == 53
  {
    assert Decompose("web1") == Host("web", 1) by {
      assert "web1" == "web" + "1" + "" + "";
      LabelOfBlocks("web", "1", "", "");
      MemberIsLastDigit("web1", 3);
    }
    assert "" + "web" == "web";
    assert FamilyOf(0x25) == 10;
    assert Colour(10, 1) == 53;
  }

  /** The table of the usage text: members 0 to 9 of family 0 and of
      family 55. */
  lemma UsageTable()
    ensures seq(10, (m: int) requires 0 <= m < 10 => Colour(0, m))
            == [22, 23, 24, 25, 26, 27, 21, 20, 19, 18]
    ensures seq(10, (m: int) requires 0 <= m < 10 => Colour(55, m))
            == [189, 188, 187, 186, 185, 184, 190, 191, 192, 193]
  {
  }

  /** Member 3 is the first member that collides with a neighbouring family:
      member 3 of family 0 meets member 2 of family 1 on 25, and member 3 of
      family 1 meets member 2 of family 0 on 24. Member 4 of family 1 is 23. */
  lemma NeighbourCollision()
    ensures Colour(0, 3) == Colour(1, 2) == 25
    ensures Colour(1, 3) == Colour(0, 2) == 24
    ensures Colour(1, 4) == 23
  {
  }
}
