/**
 The colour of a hostname: decompose it, hash the salted label into a
 family, and place the member around the family's head.

 The digest is a parameter: any function from the hashed string to its first
 byte. The script uses the first byte of MD5 over the UTF-8 encoding.
 */
module Resolver {
  import opened Decomposition
  import opened Families
  import opened Palette

  /** The family of a host: the digest byte of `salt + label`, salt first. */
  function FamilyOfHost(hostname: string, salt: string, digest: string -> Byte): (fam: Family)
    ensures var h := digest(salt + Label(hostname)); 170 * fam - 85 < 44 * h < 170 * fam + 85
  {
    FamilyOf(digest(salt + Label(hostname)))
  }

  /** The colour index printed for `hostname` under `salt`. Every hostname
      and salt that is a Dafny string is accepted, the empty ones included;
      the script itself can raise on a salt that is not valid text (see the
      README). */
  function Resolve(hostname: string, salt: string, digest: string -> Byte): (col: int)
    ensures 18 <= col <= 225
    ensures Member(hostname) == 1 ==> col == FamilyOfHost(hostname, salt, digest) * 3 + 23
  {
    var host := Decompose(hostname);
    var fam := FamilyOf(digest(salt + host.letters));
    Colour(fam, host.member)
  }

  /** The colour depends on the hostname only through its label and member. */
  lemma ResolveFactors(a: string, b: string, salt: string, digest: string -> Byte)
    requires Label(a) == Label(b) && Member(a) == Member(b)
    ensures Resolve(a, salt, digest) == Resolve(b, salt, digest)
  {
  }

  /** A hostname without digits gets the colour of the same hostname with a
      `0` appended. */
  lemma NoDigitResolvesAsZero(hostname: string, salt: string, digest: string -> Byte)
    requires forall i :: 0 <= i < |hostname| ==> !IsDigit(hostname[i])
    ensures Resolve(hostname, salt, digest) == Resolve(hostname + "0", salt, digest)
  {
  }

  /** Two hosts of one label differ in colour exactly when their members
      differ. */
  lemma SameLabelDistinctMembers(a: string, b: string, salt: string, digest: string -> Byte)
    requires Label(a) == Label(b)
    ensures Resolve(a, salt, digest) == Resolve(b, salt, digest) <==> Member(a) == Member(b)
  {
    ColourInjective(FamilyOfHost(a, salt, digest), Member(a), Member(b));
  }

  /** Hosts whose members are 0, 1 or 2 share a colour only when they share
      both family and member. */
  lemma NoCollisionForSmallMembers(a: string, b: string, salt: string, digest: string -> Byte)
    requires Member(a) <= 2 && Member(b) <= 2
    ensures Resolve(a, salt, digest) == Resolve(b, salt, digest) <==>
              FamilyOfHost(a, salt, digest) == FamilyOfHost(b, salt, digest) && Member(a) == Member(b)
  {
    NoSmallMemberCollision(FamilyOfHost(a, salt, digest), Member(a), FamilyOfHost(b, salt, digest), Member(b));
  }
}
