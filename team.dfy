/** The curated team list has no duplicates, so classifying against it partitions the channels. */
module TeamFacts {
  import opened Types
  import opened Seqs
  import opened Discovery
  import opened Report

  /**
   * The position of an identifier in `ScienceTeam`, told apart by its third and fourth
   * characters alone, or -1. Comparing the 32 literals pairwise means 496 equalities of
   * 24-character strings, more than the verifier handles within its resource limit; an
   * injective map into slots turns that into one character test per entry.
   */
  function TeamSlot(s: string): int {
    if |s| < 4 then -1
    else if s[2] == '4' && s[3] == 'a' then 0
    else if s[2] == 'Y' && s[3] == 'O' then 1
    else if s[2] == 'B' && s[3] == 'c' then 2
    else if s[2] == 'J' && s[3] == 'D' then 3
    else if s[2] == 'E' && s[3] == 'B' then 4
    else if s[2] == 'o' && s[3] == 'H' then 5
    else if s[2] == '9' && s[3] == '-' then 6
    else if s[2] == '5' && s[3] == '0' then 7
    else if s[2] == '2' && s[3] == 'F' then 8
    else if s[2] == 'c' && s[3] == 'F' then 9
    else if s[2] == 'q' && s[3] == '0' then 10
    else if s[2] == 'o' && s[3] == 'x' then 11
    else if s[2] == 'L' && s[3] == 'v' then 12
    else if s[2] == '4' && s[3] == 'E' then 13
    else if s[2] == 'm' && s[3] == 'd' then 14
    else if s[2] == 'L' && s[3] == 'n' then 15
    else if s[2] == '-' && s[3] == 'E' then 16
    else if s[2] == 'Y' && s[3] == 'g' then 17
    else if s[2] == 'T' && s[3] == 'h' then 18
    else if s[2] == 'I' && s[3] == 'J' then 19
    else if s[2] == '4' && s[3] == 'X' then 20
    else if s[2] == '6' && s[3] == 'K' then 21
    else if s[2] == 'i' && s[3] == 'E' then 22
    else if s[2] == 'n' && s[3] == 'g' then 23
    else if s[2] == 'M' && s[3] == 'W' then 24
    else if s[2] == 'I' && s[3] == 'u' then 25
    else if s[2] == 'L' && s[3] == '9' then 26
    else if s[2] == 'C' && s[3] == 'a' then 27
    else if s[2] == 'C' && s[3] == '4' then 28
    else if s[2] == 's' && s[3] == 'h' then 29
    else if s[2] == 'x' && s[3] == 'j' then 30
    else if s[2] == '3' && s[3] == 'g' then 31
    else -1
  }

  lemma Slot0() ensures TeamSlot(ScienceTeam[0]) == 0 {}
  lemma Slot1() ensures TeamSlot(ScienceTeam[1]) == 1 {}
  lemma Slot2() ensures TeamSlot(ScienceTeam[2]) == 2 {}
  lemma Slot3() ensures TeamSlot(ScienceTeam[3]) == 3 {}
  lemma Slot4() ensures TeamSlot(ScienceTeam[4]) == 4 {}
  lemma Slot5() ensures TeamSlot(ScienceTeam[5]) == 5 {}
  lemma Slot6() ensures TeamSlot(ScienceTeam[6]) == 6 {}
  lemma Slot7() ensures TeamSlot(ScienceTeam[7]) == 7 {}
  lemma Slot8() ensures TeamSlot(ScienceTeam[8]) == 8 {}
  lemma Slot9() ensures TeamSlot(ScienceTeam[9]) == 9 {}
  lemma Slot10() ensures TeamSlot(ScienceTeam[10]) == 10 {}
  lemma Slot11() ensures TeamSlot(ScienceTeam[11]) == 11 {}
  lemma Slot12() ensures TeamSlot(ScienceTeam[12]) == 12 {}
  lemma Slot13() ensures TeamSlot(ScienceTeam[13]) == 13 {}
  lemma Slot14() ensures TeamSlot(ScienceTeam[14]) == 14 {}
  lemma Slot15() ensures TeamSlot(ScienceTeam[15]) == 15 {}
  lemma Slot16() ensures TeamSlot(ScienceTeam[16]) == 16 {}
  lemma Slot17() ensures TeamSlot(ScienceTeam[17]) == 17 {}
  lemma Slot18() ensures TeamSlot(ScienceTeam[18]) == 18 {}
  lemma Slot19() ensures TeamSlot(ScienceTeam[19]) == 19 {}
  lemma Slot20() ensures TeamSlot(ScienceTeam[20]) == 20 {}
  lemma Slot21() ensures TeamSlot(ScienceTeam[21]) == 21 {}
  lemma Slot22() ensures TeamSlot(ScienceTeam[22]) == 22 {}
  lemma Slot23() ensures TeamSlot(ScienceTeam[23]) == 23 {}
  lemma Slot24() ensures TeamSlot(ScienceTeam[24]) == 24 {}
  lemma Slot25() ensures TeamSlot(ScienceTeam[25]) == 25 {}
  lemma Slot26() ensures TeamSlot(ScienceTeam[26]) == 26 {}
  lemma Slot27() ensures TeamSlot(ScienceTeam[27]) == 27 {}
  lemma Slot28() ensures TeamSlot(ScienceTeam[28]) == 28 {}
  lemma Slot29() ensures TeamSlot(ScienceTeam[29]) == 29 {}
  lemma Slot30() ensures TeamSlot(ScienceTeam[30]) == 30 {}
  lemma Slot31() ensures TeamSlot(ScienceTeam[31]) == 31 {}

  lemma TeamSlotOf(i: nat)
    requires i < |ScienceTeam|
    ensures TeamSlot(ScienceTeam[i]) == i
  {
    if i == 0 { Slot0(); }
    else if i == 1 { Slot1(); }
    else if i == 2 { Slot2(); }
    else if i == 3 { Slot3(); }
    else if i == 4 { Slot4(); }
    else if i == 5 { Slot5(); }
    else if i == 6 { Slot6(); }
    else if i == 7 { Slot7(); }
    else if i == 8 { Slot8(); }
    else if i == 9 { Slot9(); }
    else if i == 10 { Slot10(); }
    else if i == 11 { Slot11(); }
    else if i == 12 { Slot12(); }
    else if i == 13 { Slot13(); }
    else if i == 14 { Slot14(); }
    else if i == 15 { Slot15(); }
    else if i == 16 { Slot16(); }
    else if i == 17 { Slot17(); }
    else if i == 18 { Slot18(); }
    else if i == 19 { Slot19(); }
    else if i == 20 { Slot20(); }
    else if i == 21 { Slot21(); }
    else if i == 22 { Slot22(); }
    else if i == 23 { Slot23(); }
    else if i == 24 { Slot24(); }
    else if i == 25 { Slot25(); }
    else if i == 26 { Slot26(); }
    else if i == 27 { Slot27(); }
    else if i == 28 { Slot28(); }
    else if i == 29 { Slot29(); }
    else if i == 30 { Slot30(); }
    else { Slot31(); }
  }

  /** No identifier is listed twice in `ScienceTeam`. */
  lemma ScienceTeamDistinct()
    ensures Distinct(ScienceTeam)
  {
    forall i, j | 0 <= i < j < |ScienceTeam| ensures ScienceTeam[i] != ScienceTeam[j] {
      TeamSlotOf(i);
      TeamSlotOf(j);
    }
  }

  /**
   * Classifying against `ScienceTeam` puts every channel in exactly one part, once:
   * the known part holds the team's channels and the other part the rest.
   */
  lemma ScienceTeamClassification(cs: seq<Channel>)
    ensures multiset(Known(cs, ScienceTeam)) + multiset(Others(cs, ScienceTeam)) == multiset(cs)
    ensures forall c :: c in Known(cs, ScienceTeam) ==> c.id in ScienceTeam
    ensures forall c :: c in Others(cs, ScienceTeam) ==> c.id !in ScienceTeam
  {
    ScienceTeamDistinct();
    ClassificationPartitions(cs, ScienceTeam);
  }
}
