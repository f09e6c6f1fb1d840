# host-color, modelled in Dafny

`hostcolor.py` turns a hostname such as `web7` or `dns1` into an index of the
256-colour terminal palette. Related hosts end up with related colours. The
script reads a hostname as a *label* (its letters) and a *number* (its digits).
It hashes `salt + label` into one of 67 *families*. The last digit of the number
is the host's *member* index in its family. The colour is the family's *head*
colour, `3 * family + 23`, plus a zig-zag *offset* chosen by the member and by
the parity of the family.

The script computes all of this inline in `main()`. This project lifts that
computation into a chain of pure, total functions and proves the properties
that the usage text promises.

| file | module | what it holds |
|---|---|---|
| `decomposition.dfy` | `Decomposition` | label, number and member of a hostname |
| `families.dfy` | `Families` | digest byte to family, with the exact integer rounding |
| `palette.dfy` | `Palette` | parity sign, member offset, colour, and their table and collision properties |
| `resolver.dfy` | `Resolver` | the whole hostname-to-colour chain |
| `examples.dfy` | `UsageExamples` | the worked examples and the table of the usage text |

The digest is a parameter `digest: string -> Byte`. It stands for "the first
byte of the MD5 digest of the UTF-8 encoding". The family is
`round(h / 255.0 * 66)` in the script. Here it is the integer `(44h + 85) / 170`.
`Families.FamilyIsRounding` proves that this integer is Python 3's
round-half-even of the exact value `66h / 255`, and that no other integer is.
`Families.NoTie` proves that `66h / 255` is never halfway between two integers.
So Python 2's rounding, which breaks ties away from zero, gives the same family
as Python 3's. The script's `#!/usr/bin/env python` line may run either
version. This agreement covers the rounding only: the two versions differ on
salts that are not valid text (see "## Left out").

Where the code and its descriptions disagree, the model follows the code:

- The usage text says member 4 of family 1 is colour 25 (hostcolor.py:29-30).
  The code gives 23. Member 3 is the first member that collides with a
  neighbouring family: member 3 of family 0 and member 2 of family 1 are both
  25, and member 3 of family 1 and member 2 of family 0 are both 24.
  `UsageExamples.NeighbourCollision` states these facts.
- The usage text speaks of "up to 66 color families" (hostcolor.py:28). The
  code and the family names `fam[0-66]` (hostcolor.py:35) give 67 families,
  and `Families.FamilyOnto` shows that each of them occurs.
- The usage text gives the colour range as 18-229. The model proves the
  tighter range 18-225 and shows both ends are reached.

Member 0 is not the head: it sits one below the head in even families and one
above it in odd families, as the table at hostcolor.py:44 shows.
`Palette.MemberZeroBesideHead` states both cases.

The one concrete colour the usage text gives is `web1` → 53 (hostcolor.py:8).
The first byte of MD5 of `web` is 0x25, which is family 10, whose head is 53.
`UsageExamples.Web1Example` proves 53 for any digest that gives `web` the byte
0x25; the byte itself is not derived, since MD5 is not modelled.

## Model

| member | source | states |
|---|---|---|
| `Decomposition.Filter` | hostcolor.py:84-85 | the kept characters all pass the test; a string whose every character passes is kept whole; the result is empty exactly when no character passes |
| `Decomposition.FilterConcat` | hostcolor.py:84-85 | filtering `s + t` gives the filtered `s` followed by the filtered `t`, so the characters stay in order |
| `Decomposition.Label` | hostcolor.py:84 | the label holds only letters, is no longer than the hostname, and is the hostname itself when that is all letters |
| `Decomposition.LabelConcat` | hostcolor.py:84 | the label of a concatenation is the concatenation of the labels |
| `Decomposition.LabelOfChar` | hostcolor.py:84 | one letter is its own label and any other character has an empty label |
| `Decomposition.LabelIsLetters` | hostcolor.py:84 | the label equals the letters of the hostname taken front to back, an independent recursive definition |
| `Decomposition.LabelIdempotent` | hostcolor.py:84 | the label of a label is the label itself |
| `Decomposition.Number` | hostcolor.py:85 | the number holds only digits, and it is empty exactly when the hostname has no digit |
| `Decomposition.DigitRoundTrip` | hostcolor.py:92 | reading a digit character as a value and writing the value back are inverse |
| `Decomposition.Member` | hostcolor.py:85-92 | the member is a value 0 to 9, and it is 0 when the hostname has no digit |
| `Decomposition.MemberIsLastDigit` | hostcolor.py:85-92 | the member is the value of the digit at the last position that holds a digit, whatever letters or other characters follow it |
| `Decomposition.Decompose` | hostcolor.py:84-92 | the label part holds only letters, and the member is 0 when the hostname has no digit |
| `Decomposition.RecomposeRoundTrip` | hostcolor.py:84-92 | writing a host as its label followed by its member digit gives a hostname that decomposes back to that host |
| `Decomposition.NoDigitIsMemberZero` | hostcolor.py:89-90 | a hostname without digits decomposes exactly like the same hostname ending in `0` |
| `Families.FamilyOf` | hostcolor.py:86-88 | the family lies in 0..66 and is within 1/2 of `66h / 255`, strictly |
| `Families.FamilyIsRounding` | hostcolor.py:87-88 | an integer is Python's `round` of `h / 255 * 66` if and only if it is the family |
| `Families.NoTie` | hostcolor.py:87-88 | `h / 255 * 66` is never halfway between two integers, so ties-to-even and ties-away-from-zero rounding agree |
| `Families.FamilyEnds` | hostcolor.py:87-88 | byte 0 gives family 0 and byte 255 gives family 66 |
| `Families.FamilyMonotone` | hostcolor.py:87-88 | a larger byte never gives a smaller family |
| `Families.FamilyOnto` | hostcolor.py:35 | each of the 67 families is reached by some byte |
| `Palette.Sign` | hostcolor.py:93-96 | the sign is -1 or +1, is -1 for family 0 and flips from each family to the next; `Palette.OffsetMirror` shows what the flip does to the offsets |
| `Palette.Head` | hostcolor.py:34-36 | heads lie in 23..221 and are 2 modulo 3, and `(head - 23) / 3` gives the family back |
| `Palette.Offset` | hostcolor.py:93-100 | the offset lies in -5..5, and it is 0 exactly for member 1 |
| `Palette.Colour` | hostcolor.py:101 | the colour lies in 18..225 and within 5 of the family head; it is the head exactly for member 1 |
| `Palette.EvenOffsetTable` | hostcolor.py:43-53 | an even family gives members 0..9 the offsets -1, 0, 1, 2, 3, 4, -2, -3, -4, -5 |
| `Palette.OffsetMirror` | hostcolor.py:93-100 | families of opposite parity give each member opposite offsets |
| `Palette.ColourInjective` | hostcolor.py:97-101 | within one family two members share a colour if and only if they are the same member |
| `Palette.MemberZeroBesideHead` | hostcolor.py:44-45 | member 0 is one below the head in an even family and one above it in an odd family |
| `Palette.ColourRangeTight` | hostcolor.py:34-36 | member 9 of family 0 is 18 and member 5 of family 66 is 225; the heads of families 0 and 66 are 23 and 221 |
| `Palette.SmallMembersAroundHead` | hostcolor.py:27-30 | members 0, 1 and 2 lie on the head or next to it |
| `Palette.FamilyFromColour` | hostcolor.py:27-30 | for members 0, 1 and 2 the family is recovered from the colour as `(colour - 22) / 3` |
| `Palette.NoSmallMemberCollision` | hostcolor.py:27-30 | two hosts with members 0 to 2 share a colour only if they share family and member |
| `Resolver.FamilyOfHost` | hostcolor.py:86-88 | the family of a host is the integer within 1/2 of `66h / 255`, where `h` is the digest byte of the salt followed by the label |
| `Resolver.Resolve` | hostcolor.py:84-101 | every hostname and salt string, empty ones included, give a colour in 18..225; a member-1 host gets its family's head colour |
| `Resolver.ResolveFactors` | hostcolor.py:84-101 | two hostnames with the same label and member get the same colour |
| `Resolver.NoDigitResolvesAsZero` | hostcolor.py:89-92 | a hostname without digits gets the colour of the same name ending in `0` |
| `Resolver.SameLabelDistinctMembers` | hostcolor.py:97-101 | two hostnames with the same label get the same colour if and only if they have the same member |
| `Resolver.NoCollisionForSmallMembers` | hostcolor.py:27-30 | hosts with members 0 to 2 share a colour if and only if they share family and member |
| `UsageExamples.InterleavedExample` | hostcolor.py:32 | `abc32xyz1` has label `abcxyz`, number `321` and member 1 |
| `UsageExamples.SuffixExample` | hostcolor.py:3-5 | `web1` and `web321` both have label `web` and member 1; `web` has member 0 |
| `UsageExamples.SuffixSameColour` | hostcolor.py:3-5 | under any salt and digest, `web1` and `web321` share a colour |
| `UsageExamples.InterleavedSameColour` | hostcolor.py:32 | under any salt and digest, `abc32xyz1` and `abcxyz1` share a colour |
| `UsageExamples.Web1Example` | hostcolor.py:8 | with an empty salt and a digest that gives `web` the byte 0x25, `web1` is colour 53 |
| `UsageExamples.UsageTable` | hostcolor.py:43-53 | members 0..9 of family 0 are 22, 23, 24, 25, 26, 27, 21, 20, 19, 18 and of family 55 are 189, 188, 187, 186, 185, 184, 190, 191, 192, 193 |
| `UsageExamples.NeighbourCollision` | hostcolor.py:27-30 | member 3 of family 0 and member 2 of family 1 are both 25, member 3 of family 1 and member 2 of family 0 are both 24, and member 4 of family 1 is 23 |

## Left out

- MD5 and the hex-digest slicing (hostcolor.py:86): a foreign cryptographic routine. It becomes the parameter `digest`, applied to `salt + label` with the salt first. The UTF-8 encoding is part of what `digest` stands for.
- Salt encoding (hostcolor.py:86): under Python 2, a salt holding a non-ASCII byte makes `.encode('utf-8')` raise an error. Under Python 3, a salt that is not valid text in the locale's encoding makes it raise one. The model's `digest` accepts every Dafny string, which matches Python 3 on valid Unicode text. Labels never raise, because they hold only ASCII letters.
- Salt sensitivity: whether two salts give different colours depends on MD5's actual values, so the model cannot state it.
- Floating point (hostcolor.py:87-88): the model uses exact rationals. `h / 255.0 * 66` as a double is within about 1e-13 of the exact value, and the exact value is at least 1/170 away from any half-integer, so the double rounds to the same integer. That error bound is argued here, not proved.
- Python's Unicode `isalpha` and `isdigit` (hostcolor.py:84-85): letters and digits are the ASCII ones. The script's behaviour on other characters is not modelled. For example, `'²'.isdigit()` holds but `int('²')` raises an error.
- Command-line handling (hostcolor.py:12-83, 102-111): option parsing, the loop over the hostname arguments, printing, terminal escape sequences, and the usage, version and help text.
- The shell version of the script mentioned at hostcolor.py:7-8 is not part of this model.
