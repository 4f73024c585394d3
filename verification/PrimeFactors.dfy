/**
 The prime factors of 2^N - 1 for all lengths of the shift register: by trial division, and the largest, 2^31 - 1, by
 its powers of seven.
 */
module PrimeFactors {
  import opened Orbits
  import opened Primality

  lemma {:induction false} PrimesTo20()
    ensures Prime(2) && Prime(3) && Prime(5) && Prime(7) && Prime(11) && Prime(13) && Prime(17) && Prime(19)
  {
    ByTrial(2, 0);
    ByTrial(3, 0);
    ByTrial(5, 1);
    ByTrial(7, 1);
    ByTrial(11, 2);
    ByTrial(13, 2);
    ByTrial(17, 3);
    ByTrial(19, 3);
  }

  lemma {:induction false} PrimesTo100()
    ensures Prime(23) && Prime(29) && Prime(31) && Prime(41) && Prime(43) && Prime(47) && Prime(73) && Prime(89)
  {
    ByTrial(23, 3);
    ByTrial(29, 4);
    ByTrial(31, 4);
    ByTrial(41, 5);
    ByTrial(43, 5);
    ByTrial(47, 5);
    ByTrial(73, 7);
    ByTrial(89, 8);
  }

  lemma {:induction false} PrimesTo400()
    ensures Prime(113) && Prime(127) && Prime(151) && Prime(233) && Prime(241) && Prime(257) && Prime(331)
    ensures Prime(337)
  {
    ByTrial(113, 16);
    ByTrial(127, 16);
    ByTrial(151, 16);
    ByTrial(233, 16);
    ByTrial(241, 16);
    ByTrial(257, 16);
    ByTrial(331, 24);
    ByTrial(337, 24);
  }

  lemma {:induction false} PrimesTo2000()
    ensures Prime(601) && Prime(683) && Prime(1103) && Prime(1801)
  {
    ByTrial(601, 24);
    ByTrial(683, 32);
    ByTrial(1103, 32);
    ByTrial(1801, 48);
  }

  lemma {:induction false} PrimesTo3000()
    ensures Prime(2089) && Prime(2731)
  {
    ByTrial(2089, 48);
    ByTrial(2731, 56);
  }

  lemma {:induction false} Prime8191()
    ensures Prime(8191)
  {
    ByTrial(8191, 96);
  }

  lemma {:induction false} Prime65537()
    ensures Prime(65537)
  {
    Trials65537();
    ByLongTrial(65537, 4, 257);
  }

  lemma {:induction false} Trials65537()
    ensures UndividedLong(65537, 2, 4)
  {
  }

  lemma {:induction false} Prime131071()
    ensures Prime(131071)
  {
    Trials131071();
    ByLongTrial(131071, 6, 385);
  }

  lemma {:induction false} Trials131071()
    ensures UndividedLong(131071, 2, 6)
  {
  }

  lemma {:induction false} Prime178481()
    ensures Prime(178481)
  {
    Trials178481();
    ByLongTrial(178481, 7, 449);
  }

  lemma {:induction false} Trials178481()
    ensures UndividedLong(178481, 2, 7)
  {
  }

  lemma {:induction false} Prime262657()
    ensures Prime(262657)
  {
    Trials262657();
    ByLongTrial(262657, 8, 513);
  }

  lemma {:induction false} Trials262657()
    ensures UndividedLong(262657, 2, 8)
  {
  }

  lemma {:induction false} Prime524287()
    ensures Prime(524287)
  {
    Trials524287();
    ByLongTrial(524287, 12, 769);
  }

  lemma {:induction false} Trials524287()
    ensures UndividedLong(524287, 2, 12)
  {
  }

  // ---------------------------------------------------------------------------
  // 2^31 - 1
  // ---------------------------------------------------------------------------

  lemma {:induction false} SevenPart1(acts: Acting)
    requires ActsClosed(2147483647, acts)
    requires acts(7, 1)
    ensures acts(49, 2) && acts(2401, 4) && acts(5764801, 8) && acts(621132276, 16) && acts(1565515858, 32)
    ensures acts(254926356, 64) && acts(505181450, 128) && acts(784826772, 256) && acts(1992759719, 512)
    ensures acts(1181505519, 1024) && acts(714812675, 2048) && acts(330997682, 4096)
  {
    assert Multiplied(2147483647, 7, 1, 7, 1, 49);
    assert Multiplied(2147483647, 49, 2, 49, 2, 2401);
    assert Multiplied(2147483647, 2401, 4, 2401, 4, 5764801);
    assert Multiplied(2147483647, 5764801, 8, 5764801, 8, 621132276);
    assert Multiplied(2147483647, 621132276, 16, 621132276, 16, 1565515858);
    assert Multiplied(2147483647, 1565515858, 32, 1565515858, 32, 254926356);
    assert Multiplied(2147483647, 254926356, 64, 254926356, 64, 505181450);
    assert Multiplied(2147483647, 505181450, 128, 505181450, 128, 784826772);
    assert Multiplied(2147483647, 784826772, 256, 784826772, 256, 1992759719);
    assert Multiplied(2147483647, 1992759719, 512, 1992759719, 512, 1181505519);
    assert Multiplied(2147483647, 1181505519, 1024, 1181505519, 1024, 714812675);
    assert Multiplied(2147483647, 714812675, 2048, 714812675, 2048, 330997682);
  }

  lemma {:induction false} SevenPart2(acts: Acting)
    requires ActsClosed(2147483647, acts)
    requires acts(330997682, 4096)
    ensures acts(1632702277, 8192) && acts(1049638675, 16384) && acts(1405977407, 32768) && acts(118315438, 65536)
    ensures acts(1064954231, 131072) && acts(954354495, 262144) && acts(446794602, 524288)
    ensures acts(885699688, 1048576) && acts(151543255, 2097152) && acts(511252559, 4194304)
    ensures acts(138288726, 8388608) && acts(365438676, 16777216)
  {
    assert Multiplied(2147483647, 330997682, 4096, 330997682, 4096, 1632702277);
    assert Multiplied(2147483647, 1632702277, 8192, 1632702277, 8192, 1049638675);
    assert Multiplied(2147483647, 1049638675, 16384, 1049638675, 16384, 1405977407);
    assert Multiplied(2147483647, 1405977407, 32768, 1405977407, 32768, 118315438);
    assert Multiplied(2147483647, 118315438, 65536, 118315438, 65536, 1064954231);
    assert Multiplied(2147483647, 1064954231, 131072, 1064954231, 131072, 954354495);
    assert Multiplied(2147483647, 954354495, 262144, 954354495, 262144, 446794602);
    assert Multiplied(2147483647, 446794602, 524288, 446794602, 524288, 885699688);
    assert Multiplied(2147483647, 885699688, 1048576, 885699688, 1048576, 151543255);
    assert Multiplied(2147483647, 151543255, 2097152, 151543255, 2097152, 511252559);
    assert Multiplied(2147483647, 511252559, 4194304, 511252559, 4194304, 138288726);
    assert Multiplied(2147483647, 138288726, 8388608, 138288726, 8388608, 365438676);
  }

  lemma {:induction false} SevenPart3(acts: Acting)
    requires ActsClosed(2147483647, acts)
    requires acts(49, 2) && acts(5764801, 8) && acts(621132276, 16) && acts(1565515858, 32) && acts(505181450, 128)
    requires acts(714812675, 2048) && acts(1632702277, 8192) && acts(1405977407, 32768) && acts(151543255, 2097152)
    requires acts(365438676, 16777216)
    ensures acts(370710466, 18) && acts(1958495418, 146) && acts(1025785781, 41000) && acts(767989406, 2099200)
    ensures acts(2094564678, 33554432) && acts(1967570846, 67108864) && acts(826843884, 134217728)
    ensures acts(2003390340, 268435456) && acts(2053169806, 536870912) && acts(2147483640, 1073741824)
  {
    assert Multiplied(2147483647, 365438676, 16777216, 365438676, 16777216, 2094564678);
    assert Multiplied(2147483647, 2094564678, 33554432, 2094564678, 33554432, 1967570846);
    assert Multiplied(2147483647, 1967570846, 67108864, 1967570846, 67108864, 826843884);
    assert Multiplied(2147483647, 826843884, 134217728, 826843884, 134217728, 2003390340);
    assert Multiplied(2147483647, 2003390340, 268435456, 2003390340, 268435456, 2053169806);
    assert Multiplied(2147483647, 2053169806, 536870912, 2053169806, 536870912, 2147483640);
    assert Multiplied(2147483647, 621132276, 16, 49, 2, 370710466);
    assert Multiplied(2147483647, 151543255, 2097152, 714812675, 2048, 767989406);
    assert Multiplied(2147483647, 1565515858, 32, 5764801, 8, 1457850878);
    assert Multiplied(2147483647, 505181450, 128, 370710466, 18, 1958495418);
    assert Multiplied(2147483647, 1632702277, 8192, 1457850878, 40, 12594263);
    assert Multiplied(2147483647, 1405977407, 32768, 12594263, 8232, 1025785781);
  }

  lemma {:induction false} SevenPart4(acts: Acting)
    requires ActsClosed(2147483647, acts)
    requires acts(254926356, 64) && acts(1958495418, 146) && acts(784826772, 256) && acts(1992759719, 512)
    requires acts(1181505519, 1024) && acts(330997682, 4096) && acts(1049638675, 16384) && acts(1025785781, 41000)
    requires acts(118315438, 65536) && acts(1064954231, 131072) && acts(446794602, 524288)
    requires acts(767989406, 2099200) && acts(511252559, 4194304) && acts(138288726, 8388608)
    requires acts(2094564678, 33554432) && acts(1967570846, 67108864) && acts(826843884, 134217728)
    ensures acts(1990681161, 589970) && acts(979139960, 2271272) && acts(688299120, 2271784)
    ensures acts(544135455, 2293288) && acts(1171120261, 4194560) && acts(14415707, 67108928)
    ensures acts(457804095, 176160768)
  {
    assert Multiplied(2147483647, 1064954231, 131072, 1025785781, 41000, 800353607);
    assert Multiplied(2147483647, 767989406, 2099200, 800353607, 172072, 979139960);
    assert Multiplied(2147483647, 118315438, 65536, 1958495418, 146, 1706809622);
    assert Multiplied(2147483647, 511252559, 4194304, 784826772, 256, 1171120261);
    assert Multiplied(2147483647, 979139960, 2271272, 1992759719, 512, 688299120);
    assert Multiplied(2147483647, 446794602, 524288, 1706809622, 65682, 1990681161);
    assert Multiplied(2147483647, 2094564678, 33554432, 138288726, 8388608, 1331238991);
    assert Multiplied(2147483647, 826843884, 134217728, 1331238991, 41943040, 457804095);
    assert Multiplied(2147483647, 1967570846, 67108864, 254926356, 64, 14415707);
    assert Multiplied(2147483647, 330997682, 4096, 1181505519, 1024, 1836275591);
    assert Multiplied(2147483647, 1049638675, 16384, 1836275591, 5120, 181186373);
    assert Multiplied(2147483647, 688299120, 2271784, 181186373, 21504, 544135455);
  }

  lemma {:induction false} SevenPart5(acts: Acting)
    requires ActsClosed(2147483647, acts)
    requires acts(7, 1) && acts(49, 2) && acts(2401, 4) && acts(505181450, 128) && acts(954354495, 262144)
    requires acts(1990681161, 589970) && acts(885699688, 1048576) && acts(544135455, 2293288)
    requires acts(1171120261, 4194560) && acts(365438676, 16777216) && acts(14415707, 67108928)
    requires acts(457804095, 176160768) && acts(2003390340, 268435456) && acts(2053169806, 536870912)
    ensures acts(1131570933, 130) && acts(343851343, 5833106) && acts(1814150621, 192937984)
    ensures acts(306783378, 1073741822) && acts(2147483646, 1073741823)
  {
    assert Multiplied(2147483647, 885699688, 1048576, 1990681161, 589970, 2007312632);
    assert Multiplied(2147483647, 1171120261, 4194560, 2007312632, 1638546, 343851343);
    assert Multiplied(2147483647, 457804095, 176160768, 365438676, 16777216, 1814150621);
    assert Multiplied(2147483647, 954354495, 262144, 2401, 4, 40091146);
    assert Multiplied(2147483647, 544135455, 2293288, 40091146, 262148, 1058111101);
    assert Multiplied(2147483647, 343851343, 5833106, 1058111101, 2555436, 912356814);
    assert Multiplied(2147483647, 14415707, 67108928, 912356814, 8388542, 619058704);
    assert Multiplied(2147483647, 1814150621, 192937984, 619058704, 75497470, 1881585786);
    assert Multiplied(2147483647, 2003390340, 268435456, 1881585786, 268435454, 261032409);
    assert Multiplied(2147483647, 2053169806, 536870912, 261032409, 536870910, 306783378);
    assert Multiplied(2147483647, 306783378, 1073741822, 7, 1, 2147483646);
    assert Multiplied(2147483647, 505181450, 128, 49, 2, 1131570933);
  }

  lemma {:induction false} SevenPart6(acts: Acting)
    requires ActsClosed(2147483647, acts)
    requires acts(49, 2) && acts(370710466, 18) && acts(1565515858, 32) && acts(1131570933, 130)
    requires acts(1958495418, 146) && acts(1181505519, 1024) && acts(1632702277, 8192) && acts(1049638675, 16384)
    requires acts(118315438, 65536) && acts(446794602, 524288) && acts(1990681161, 589970)
    requires acts(767989406, 2099200) && acts(979139960, 2271272) && acts(688299120, 2271784)
    requires acts(544135455, 2293288) && acts(511252559, 4194304) && acts(343851343, 5833106)
    requires acts(14415707, 67108928)
    ensures acts(1459639528, 2287802) && acts(9640716, 2293306) && acts(1350851787, 2796202)
    ensures acts(45899444, 4793490) && acts(1662053863, 5833138) && acts(512, 69273666)
  {
    assert Multiplied(2147483647, 118315438, 65536, 49, 2, 1502489168);
    assert Multiplied(2147483647, 544135455, 2293288, 370710466, 18, 9640716);
    assert Multiplied(2147483647, 343851343, 5833106, 1565515858, 32, 1662053863);
    assert Multiplied(2147483647, 446794602, 524288, 1131570933, 130, 996345015);
    assert Multiplied(2147483647, 1049638675, 16384, 1958495418, 146, 174835488);
    assert Multiplied(2147483647, 1632702277, 8192, 1181505519, 1024, 1803839492);
    assert Multiplied(2147483647, 1990681161, 589970, 1803839492, 9216, 1859770966);
    assert Multiplied(2147483647, 979139960, 2271272, 174835488, 16530, 1459639528);
    assert Multiplied(2147483647, 767989406, 2099200, 1502489168, 65538, 2087709066);
    assert Multiplied(2147483647, 688299120, 2271784, 996345015, 524418, 1350851787);
    assert Multiplied(2147483647, 511252559, 4194304, 1859770966, 599186, 45899444);
    assert Multiplied(2147483647, 14415707, 67108928, 2087709066, 2164738, 512);
  }

  lemma {:induction false} SevenPart7(acts: Acting)
    requires ActsClosed(2147483647, acts)
    requires acts(1459639528, 2287802) && acts(9640716, 2293306) && acts(1350851787, 2796202)
    requires acts(1171120261, 4194560) && acts(45899444, 4793490) && acts(1662053863, 5833138)
    requires acts(138288726, 8388608) && acts(2094564678, 33554432) && acts(457804095, 176160768)
    requires acts(1814150621, 192937984) && acts(2003390340, 268435456) && acts(2053169806, 536870912)
    requires acts(306783378, 1073741822) && acts(2147483640, 1073741824)
    ensures acts(1761855083, 6487866) && acts(535044134, 14221746) && acts(1969212174, 195225786)
    ensures acts(1205362885, 306783378) && acts(1513477735, 715827882) && acts(1, 2147483646)
  {
    assert Multiplied(2147483647, 1814150621, 192937984, 1459639528, 2287802, 1969212174);
    assert Multiplied(2147483647, 1171120261, 4194560, 9640716, 2293306, 1761855083);
    assert Multiplied(2147483647, 457804095, 176160768, 1350851787, 2796202, 373859930);
    assert Multiplied(2147483647, 2094564678, 33554432, 45899444, 4793490, 926975407);
    assert Multiplied(2147483647, 138288726, 8388608, 1662053863, 5833138, 535044134);
    assert Multiplied(2147483647, 2003390340, 268435456, 926975407, 38347922, 1205362885);
    assert Multiplied(2147483647, 2053169806, 536870912, 373859930, 178956970, 1513477735);
    assert Multiplied(2147483647, 2147483640, 1073741824, 306783378, 1073741822, 1);
  }

  lemma {:induction false} Seven(acts: Acting)
    requires ActsClosed(2147483647, acts) && acts(7, 1)
    ensures acts(1761855083, 6487866) && acts(535044134, 14221746) && acts(512, 69273666)
    ensures acts(1969212174, 195225786) && acts(1205362885, 306783378) && acts(1513477735, 715827882)
    ensures acts(2147483646, 1073741823) && acts(1, 2147483646)
  {
    SevenPart1(acts);
    SevenPart2(acts);
    SevenPart3(acts);
    SevenPart4(acts);
    SevenPart5(acts);
    SevenPart6(acts);
    SevenPart7(acts);
  }

  lemma {:induction false} SevenProductTail()
    ensures Product([11, 31, 151, 331]) == 17043521
  {
    ProductIs([331], 331, [], 1);
    ProductIs([151, 331], 151, [331], 331);
    ProductIs([31, 151, 331], 31, [151, 331], 49981);
    ProductIs([11, 31, 151, 331], 11, [31, 151, 331], 1549411);
  }

  lemma {:induction false} SevenFactors()
    ensures Factored(2147483646, [2, 3, 3, 7, 11, 31, 151, 331], [1073741823, 715827882, 715827882, 306783378,
      195225786, 69273666, 14221746, 6487866])
  {
    SevenProductTail();
    ProductIs([7, 11, 31, 151, 331], 7, [11, 31, 151, 331], 17043521);
    ProductIs([3, 7, 11, 31, 151, 331], 3, [7, 11, 31, 151, 331], 119304647);
    ProductIs([3, 3, 7, 11, 31, 151, 331], 3, [3, 7, 11, 31, 151, 331], 357913941);
    ProductIs([2, 3, 3, 7, 11, 31, 151, 331], 2, [3, 3, 7, 11, 31, 151, 331], 1073741823);
    PrimesTo100();
    PrimesTo20();
    PrimesTo400();
  }

  lemma {:induction false} SevenEnds()
    ensures Acts(7, 2147483647, 1, 2147483646) && AllElsewhere(7, 2147483647, [1073741823, 715827882, 715827882,
      306783378, 195225786, 69273666, 14221746, 6487866])
  {
    ActsOfClosed(7, 2147483647);
    ActsOnce(7, 2147483647);
    Seven(ActsOf(7, 2147483647));
    ElsewhereToo(7, 2147483647, 1761855083, 6487866, []);
    assert [6487866] + [] == [6487866];
    ElsewhereToo(7, 2147483647, 535044134, 14221746, [6487866]);
    assert [14221746] + [6487866] == [14221746, 6487866];
    ElsewhereToo(7, 2147483647, 512, 69273666, [14221746, 6487866]);
    assert [69273666] + [14221746, 6487866] == [69273666, 14221746, 6487866];
    ElsewhereToo(7, 2147483647, 1969212174, 195225786, [69273666, 14221746, 6487866]);
    assert [195225786] + [69273666, 14221746, 6487866] == [195225786, 69273666, 14221746, 6487866];
    ElsewhereToo(7, 2147483647, 1205362885, 306783378, [195225786, 69273666, 14221746, 6487866]);
    assert [306783378] + [195225786, 69273666, 14221746, 6487866]
      == [306783378, 195225786, 69273666, 14221746, 6487866];
    ElsewhereToo(7, 2147483647, 1513477735, 715827882, [306783378, 195225786, 69273666, 14221746, 6487866]);
    assert [715827882] + [306783378, 195225786, 69273666, 14221746, 6487866]
      == [715827882, 306783378, 195225786, 69273666, 14221746, 6487866];
    ElsewhereToo(7, 2147483647, 1513477735, 715827882, [715827882, 306783378, 195225786, 69273666, 14221746,
      6487866]);
    assert [715827882] + [715827882, 306783378, 195225786, 69273666, 14221746, 6487866]
      == [715827882, 715827882, 306783378, 195225786, 69273666, 14221746, 6487866];
    ElsewhereToo(7, 2147483647, 2147483646, 1073741823, [715827882, 715827882, 306783378, 195225786, 69273666,
      14221746, 6487866]);
    assert [1073741823] + [715827882, 715827882, 306783378, 195225786, 69273666, 14221746, 6487866]
      == [1073741823, 715827882, 715827882, 306783378, 195225786, 69273666, 14221746, 6487866];
  }

  lemma {:induction false} Prime2147483647()
    ensures Prime(2147483647)
  {
    SevenFactors();
    SevenEnds();
    PrimeByPowers(7, 2147483647, [2, 3, 3, 7, 11, 31, 151, 331], [1073741823, 715827882, 715827882, 306783378,
      195225786, 69273666, 14221746, 6487866]);
  }
}
