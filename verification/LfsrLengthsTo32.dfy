/**
 Certificates that the lengths 25 to 32 of the lfsr are maximal, in the form of `LfsrLengthsTo16`.
 */
module LfsrLengthsTo32 {
  import opened Orbits
  import opened PrimeFactors
  import opened RegisterWord
  import opened LfsrPeriods

  // ---------------------------------------------------------------------------
  // Length 25
  // ---------------------------------------------------------------------------

  lemma {:induction false} Chain25Part1(leads: Leading)
    requires Closed(25, 0x9, 0x1000000, leads)
    requires leads(0x10000, 16)
    ensures leads(0x104000, 64) && leads(0x48048, 128) && leads(0x1411448, 512) && leads(0x1D814D2, 1024)
    ensures leads(0xFDF116, 2048)
  {
    assert Times(25, 0x9, 0x1000000, 0x10000, 16, 0x10000, 16, 0x480);
    assert Times(25, 0x9, 0x1000000, 0x480, 32, 0x480, 32, 0x104000);
    assert Times(25, 0x9, 0x1000000, 0x104000, 64, 0x104000, 64, 0x48048);
    assert Times(25, 0x9, 0x1000000, 0x48048, 128, 0x48048, 128, 0x5960);
    assert Times(25, 0x9, 0x1000000, 0x5960, 256, 0x5960, 256, 0x1411448);
    assert Times(25, 0x9, 0x1000000, 0x1411448, 512, 0x1411448, 512, 0x1D814D2);
    assert Times(25, 0x9, 0x1000000, 0x1D814D2, 1024, 0x1D814D2, 1024, 0xFDF116);
  }

  lemma {:induction false} Chain25Part2(leads: Leading)
    requires Closed(25, 0x9, 0x1000000, leads)
    requires leads(0xFDF116, 2048)
    ensures leads(0x7EECEE, 4096) && leads(0x547BE6, 16384) && leads(0x1099C4E, 32768) && leads(0x7FACF8, 262144)
  {
    assert Times(25, 0x9, 0x1000000, 0xFDF116, 2048, 0xFDF116, 2048, 0x7EECEE);
    assert Times(25, 0x9, 0x1000000, 0x7EECEE, 4096, 0x7EECEE, 4096, 0xFAF2E);
    assert Times(25, 0x9, 0x1000000, 0xFAF2E, 8192, 0xFAF2E, 8192, 0x547BE6);
    assert Times(25, 0x9, 0x1000000, 0x547BE6, 16384, 0x547BE6, 16384, 0x1099C4E);
    assert Times(25, 0x9, 0x1000000, 0x1099C4E, 32768, 0x1099C4E, 32768, 0x1D135E6);
    assert Times(25, 0x9, 0x1000000, 0x1D135E6, 65536, 0x1D135E6, 65536, 0xFDD094);
    assert Times(25, 0x9, 0x1000000, 0xFDD094, 131072, 0xFDD094, 131072, 0x7FACF8);
  }

  lemma {:induction false} Chain25Part3(leads: Leading)
    requires Closed(25, 0x9, 0x1000000, leads)
    requires leads(0x7FACF8, 262144)
    ensures leads(0x452AB6, 1048576) && leads(0x2, 33554432)
  {
    assert Times(25, 0x9, 0x1000000, 0x7FACF8, 262144, 0x7FACF8, 262144, 0xFAAF2);
    assert Times(25, 0x9, 0x1000000, 0xFAAF2, 524288, 0xFAAF2, 524288, 0x452AB6);
    assert Times(25, 0x9, 0x1000000, 0x452AB6, 1048576, 0x452AB6, 1048576, 0xC0986);
    assert Times(25, 0x9, 0x1000000, 0xC0986, 2097152, 0xC0986, 2097152, 0x402814);
    assert Times(25, 0x9, 0x1000000, 0x402814, 4194304, 0x402814, 4194304, 0x80102);
    assert Times(25, 0x9, 0x1000000, 0x80102, 8388608, 0x80102, 8388608, 0x2004);
    assert Times(25, 0x9, 0x1000000, 0x2004, 16777216, 0x2004, 16777216, 0x2);
  }

  lemma {:induction false} Chain25Part4(leads: Leading)
    requires Closed(25, 0x9, 0x1000000, leads)
    requires leads(0x80, 7) && leads(0x10000, 16) && leads(0x20000, 17) && leads(0x104000, 64)
    requires leads(0x48048, 128) && leads(0x1411448, 512) && leads(0x1D814D2, 1024) && leads(0xFDF116, 2048)
    requires leads(0x547BE6, 16384)
    ensures leads(0x4DA4DA, 528) && leads(0xB279EC, 1057) && leads(0x1952545, 18439) && leads(0x1180B26, 18631)
  {
    assert Times(25, 0x9, 0x1000000, 0xFDF116, 2048, 0x80, 7, 0xF88AC7);
    assert Times(25, 0x9, 0x1000000, 0x547BE6, 16384, 0xF88AC7, 2055, 0x1952545);
    assert Times(25, 0x9, 0x1000000, 0x10000, 16, 0x20000, 17, 0x900);
    assert Times(25, 0x9, 0x1000000, 0x1411448, 512, 0x10000, 16, 0x4DA4DA);
    assert Times(25, 0x9, 0x1000000, 0x1D814D2, 1024, 0x900, 33, 0xB279EC);
    assert Times(25, 0x9, 0x1000000, 0x48048, 128, 0x104000, 64, 0x930002);
    assert Times(25, 0x9, 0x1000000, 0x1952545, 18439, 0x930002, 192, 0x1180B26);
  }

  lemma {:induction false} Chain25Part5(leads: Leading)
    requires Closed(25, 0x9, 0x1000000, leads)
    requires leads(0x4DA4DA, 528) && leads(0xB279EC, 1057) && leads(0x7EECEE, 4096) && leads(0x1952545, 18439)
    requires leads(0x1099C4E, 32768) && leads(0x452AB6, 1048576)
    ensures leads(0x14A9EAE, 55831) && leads(0xC79436, 1082401)
  {
    assert Times(25, 0x9, 0x1000000, 0x7EECEE, 4096, 0x4DA4DA, 528, 0x1AF592F);
    assert Times(25, 0x9, 0x1000000, 0x1099C4E, 32768, 0xB279EC, 1057, 0x1EB0259);
    assert Times(25, 0x9, 0x1000000, 0x1952545, 18439, 0x1AF592F, 4624, 0x1191708);
    assert Times(25, 0x9, 0x1000000, 0x1099C4E, 32768, 0x1191708, 23063, 0x14A9EAE);
    assert Times(25, 0x9, 0x1000000, 0x452AB6, 1048576, 0x1EB0259, 33825, 0xC79436);
  }

  lemma {:induction false} Chain25(leads: Leading)
    requires Closed(25, 0x9, 0x1000000, leads)
    requires leads(0x80, 7) && leads(0x10000, 16) && leads(0x20000, 17)
    ensures leads(0x2, 33554432) && leads(0x1180B26, 18631) && leads(0x14A9EAE, 55831) && leads(0xC79436, 1082401)
  {
    Chain25Part1(leads);
    Chain25Part2(leads);
    Chain25Part3(leads);
    Chain25Part4(leads);
    Chain25Part5(leads);
  }

  lemma {:induction false} Ends25()
    ensures var leads := LeadsOf(25);
            && leads(0x1180B26, 18631) && leads(0x14A9EAE, 55831) && leads(0xC79436, 1082401)
            && leads(0x2, 33554432)
  {
    LowTwo(25, 25, 22, 0x8);
    assert polynomials[25] == [25, 22];
    LeadsClosed(25, 0x9, 0x1000000);
    LeadsPower(25, 0x80, 7);
    LeadsPower(25, 0x10000, 16);
    LeadsPower(25, 0x20000, 17);
    Chain25(LeadsOf(25));
  }

  lemma {:induction false} Back25()
    ensures Returns(25, 33554431) && NoneReturns(25, [1082401, 55831, 18631])
  {
    Ends25();
    Closes(25, 33554432);
    NotBackEither(25, 0x1180B26, 18631, 0, []);
    assert [18631] + [] == [18631];
    NotBackEither(25, 0x14A9EAE, 55831, 0, [18631]);
    assert [55831] + [18631] == [55831, 18631];
    NotBackEither(25, 0xC79436, 1082401, 0, [55831, 18631]);
    assert [1082401] + [55831, 18631] == [1082401, 55831, 18631];
  }

  lemma {:induction false} Factors25()
    ensures Factored(33554431, [31, 601, 1801], [1082401, 55831, 18631])
  {
    ProductIs([1801], 1801, [], 1);
    ProductIs([601, 1801], 601, [1801], 1801);
    ProductIs([31, 601, 1801], 31, [601, 1801], 1082401);
    PrimesTo100();
    PrimesTo2000();
  }

  lemma {:induction false} Length25()
    ensures Maximal(25)
  {
    Powers();
    Factors25();
    Back25();
    MaximalExactly(25, [31, 601, 1801], [1082401, 55831, 18631]);
  }

  // ---------------------------------------------------------------------------
  // Length 26
  // ---------------------------------------------------------------------------

  lemma {:induction false} Chain26Part1(leads: Leading)
    requires Closed(26, 0x3100001, 0x2000000, leads)
    requires leads(0x10000, 16)
    ensures leads(0x33E3489, 64) && leads(0x3CEA531, 128) && leads(0x313CD2D, 256) && leads(0x38E4F71, 512)
    ensures leads(0x31127B, 1024) && leads(0x3A5CA0F, 2048) && leads(0x391AE04, 4096)
  {
    assert Times(26, 0x3100001, 0x2000000, 0x10000, 16, 0x10000, 16, 0x2C0006C);
    assert Times(26, 0x3100001, 0x2000000, 0x2C0006C, 32, 0x2C0006C, 32, 0x33E3489);
    assert Times(26, 0x3100001, 0x2000000, 0x33E3489, 64, 0x33E3489, 64, 0x3CEA531);
    assert Times(26, 0x3100001, 0x2000000, 0x3CEA531, 128, 0x3CEA531, 128, 0x313CD2D);
    assert Times(26, 0x3100001, 0x2000000, 0x313CD2D, 256, 0x313CD2D, 256, 0x38E4F71);
    assert Times(26, 0x3100001, 0x2000000, 0x38E4F71, 512, 0x38E4F71, 512, 0x31127B);
    assert Times(26, 0x3100001, 0x2000000, 0x31127B, 1024, 0x31127B, 1024, 0x3A5CA0F);
    assert Times(26, 0x3100001, 0x2000000, 0x3A5CA0F, 2048, 0x3A5CA0F, 2048, 0x391AE04);
  }

  lemma {:induction false} Chain26Part2(leads: Leading)
    requires Closed(26, 0x3100001, 0x2000000, leads)
    requires leads(0x391AE04, 4096)
    ensures leads(0x36077AF, 8192) && leads(0x35D1EDC, 16384) && leads(0x3D1BC8A, 65536) && leads(0x3BDB6CF, 262144)
    ensures leads(0x110E3E1, 1048576)
  {
    assert Times(26, 0x3100001, 0x2000000, 0x391AE04, 4096, 0x391AE04, 4096, 0x36077AF);
    assert Times(26, 0x3100001, 0x2000000, 0x36077AF, 8192, 0x36077AF, 8192, 0x35D1EDC);
    assert Times(26, 0x3100001, 0x2000000, 0x35D1EDC, 16384, 0x35D1EDC, 16384, 0x1EDC966);
    assert Times(26, 0x3100001, 0x2000000, 0x1EDC966, 32768, 0x1EDC966, 32768, 0x3D1BC8A);
    assert Times(26, 0x3100001, 0x2000000, 0x3D1BC8A, 65536, 0x3D1BC8A, 65536, 0xC2F8B1);
    assert Times(26, 0x3100001, 0x2000000, 0xC2F8B1, 131072, 0xC2F8B1, 131072, 0x3BDB6CF);
    assert Times(26, 0x3100001, 0x2000000, 0x3BDB6CF, 262144, 0x3BDB6CF, 262144, 0x2189CA);
    assert Times(26, 0x3100001, 0x2000000, 0x2189CA, 524288, 0x2189CA, 524288, 0x110E3E1);
  }

  lemma {:induction false} Chain26Part3(leads: Leading)
    requires Closed(26, 0x3100001, 0x2000000, leads)
    requires leads(0x200000, 21) && leads(0x33E3489, 64) && leads(0x313CD2D, 256) && leads(0x110E3E1, 1048576)
    ensures leads(0x3D4C13B, 341) && leads(0x2A3D9E1, 4194304) && leads(0x2503102, 16777216) && leads(0x2, 67108864)
  {
    assert Times(26, 0x3100001, 0x2000000, 0x110E3E1, 1048576, 0x110E3E1, 1048576, 0x209CC47);
    assert Times(26, 0x3100001, 0x2000000, 0x209CC47, 2097152, 0x209CC47, 2097152, 0x2A3D9E1);
    assert Times(26, 0x3100001, 0x2000000, 0x2A3D9E1, 4194304, 0x2A3D9E1, 4194304, 0x1D80982);
    assert Times(26, 0x3100001, 0x2000000, 0x1D80982, 8388608, 0x1D80982, 8388608, 0x2503102);
    assert Times(26, 0x3100001, 0x2000000, 0x2503102, 16777216, 0x2503102, 16777216, 0x1C47103);
    assert Times(26, 0x3100001, 0x2000000, 0x1C47103, 33554432, 0x1C47103, 33554432, 0x2);
    assert Times(26, 0x3100001, 0x2000000, 0x33E3489, 64, 0x200000, 21, 0x3F7896C);
    assert Times(26, 0x3100001, 0x2000000, 0x313CD2D, 256, 0x3F7896C, 85, 0x3D4C13B);
  }

  lemma {:induction false} Chain26Part4(leads: Leading)
    requires Closed(26, 0x3100001, 0x2000000, leads)
    requires leads(0x2, 1) && leads(0x100000, 20) && leads(0x3CEA531, 128) && leads(0x3D4C13B, 341)
    requires leads(0x38E4F71, 512) && leads(0x31127B, 1024) && leads(0x3A5CA0F, 2048) && leads(0x391AE04, 4096)
    requires leads(0x36077AF, 8192) && leads(0x35D1EDC, 16384)
    ensures leads(0x3FF8515, 2728) && leads(0x1D0EF5F, 8193) && leads(0x1BAC691, 21845)
  {
    assert Times(26, 0x3100001, 0x2000000, 0x31127B, 1024, 0x3D4C13B, 341, 0x2DF70AD);
    assert Times(26, 0x3100001, 0x2000000, 0x391AE04, 4096, 0x2DF70AD, 1365, 0x182CEDC);
    assert Times(26, 0x3100001, 0x2000000, 0x35D1EDC, 16384, 0x182CEDC, 5461, 0x1BAC691);
    assert Times(26, 0x3100001, 0x2000000, 0x36077AF, 8192, 0x2, 1, 0x1D0EF5F);
    assert Times(26, 0x3100001, 0x2000000, 0x100000, 20, 0x100000, 20, 0x3406CF4);
    assert Times(26, 0x3100001, 0x2000000, 0x3CEA531, 128, 0x3406CF4, 40, 0x3008602);
    assert Times(26, 0x3100001, 0x2000000, 0x38E4F71, 512, 0x3008602, 168, 0xF4EEC5);
    assert Times(26, 0x3100001, 0x2000000, 0x3A5CA0F, 2048, 0xF4EEC5, 680, 0x3FF8515);
  }

  lemma {:induction false} Chain26Part5(leads: Leading)
    requires Closed(26, 0x3100001, 0x2000000, leads)
    requires leads(0x3FF8515, 2728) && leads(0x1BAC691, 21845) && leads(0x3D1BC8A, 65536)
    requires leads(0x3BDB6CF, 262144) && leads(0x110E3E1, 1048576) && leads(0x2A3D9E1, 4194304)
    requires leads(0x2503102, 16777216)
    ensures leads(0x151EA72, 24573) && leads(0x15E5A52, 22369621)
  {
    assert Times(26, 0x3100001, 0x2000000, 0x1BAC691, 21845, 0x3FF8515, 2728, 0x151EA72);
    assert Times(26, 0x3100001, 0x2000000, 0x3D1BC8A, 65536, 0x1BAC691, 21845, 0x162BC75);
    assert Times(26, 0x3100001, 0x2000000, 0x3BDB6CF, 262144, 0x162BC75, 87381, 0x82B8C4);
    assert Times(26, 0x3100001, 0x2000000, 0x110E3E1, 1048576, 0x82B8C4, 349525, 0x2F0DB36);
    assert Times(26, 0x3100001, 0x2000000, 0x2A3D9E1, 4194304, 0x2F0DB36, 1398101, 0x1C37BCF);
    assert Times(26, 0x3100001, 0x2000000, 0x2503102, 16777216, 0x1C37BCF, 5592405, 0x15E5A52);
  }

  lemma {:induction false} Chain26(leads: Leading)
    requires Closed(26, 0x3100001, 0x2000000, leads)
    requires leads(0x2, 1) && leads(0x10000, 16) && leads(0x100000, 20) && leads(0x200000, 21)
    ensures leads(0x2, 67108864) && leads(0x1D0EF5F, 8193) && leads(0x151EA72, 24573) && leads(0x15E5A52, 22369621)
  {
    Chain26Part1(leads);
    Chain26Part2(leads);
    Chain26Part3(leads);
    Chain26Part4(leads);
    Chain26Part5(leads);
  }

  lemma {:induction false} Ends26()
    ensures var leads := LeadsOf(26);
            && leads(0x1D0EF5F, 8193) && leads(0x151EA72, 24573) && leads(0x15E5A52, 22369621)
            && leads(0x2, 67108864)
  {
    LowFour(26, 26, 6, 2, 1, 0x3100000);
    assert polynomials[26] == [26, 6, 2, 1];
    LeadsClosed(26, 0x3100001, 0x2000000);
    LeadsPower(26, 0x2, 1);
    LeadsPower(26, 0x10000, 16);
    LeadsPower(26, 0x100000, 20);
    LeadsPower(26, 0x200000, 21);
    Chain26(LeadsOf(26));
  }

  lemma {:induction false} Back26()
    ensures Returns(26, 67108863) && NoneReturns(26, [22369621, 24573, 8193])
  {
    Ends26();
    Closes(26, 67108864);
    NotBackEither(26, 0x1D0EF5F, 8193, 1, []);
    assert [8193] + [] == [8193];
    NotBackEither(26, 0x151EA72, 24573, 0, [8193]);
    assert [24573] + [8193] == [24573, 8193];
    NotBackEither(26, 0x15E5A52, 22369621, 0, [24573, 8193]);
    assert [22369621] + [24573, 8193] == [22369621, 24573, 8193];
  }

  lemma {:induction false} Factors26()
    ensures Factored(67108863, [3, 2731, 8191], [22369621, 24573, 8193])
  {
    ProductIs([8191], 8191, [], 1);
    ProductIs([2731, 8191], 2731, [8191], 8191);
    ProductIs([3, 2731, 8191], 3, [2731, 8191], 22369621);
    Prime8191();
    PrimesTo20();
    PrimesTo3000();
  }

  lemma {:induction false} Length26()
    ensures Maximal(26)
  {
    Powers();
    Factors26();
    Back26();
    MaximalExactly(26, [3, 2731, 8191], [22369621, 24573, 8193]);
  }

  // ---------------------------------------------------------------------------
  // Length 27
  // ---------------------------------------------------------------------------

  lemma {:induction false} Chain27Part1(leads: Leading)
    requires Closed(27, 0x6400001, 0x4000000, leads)
    requires leads(0x10000, 16)
    ensures leads(0x7C00037, 32) && leads(0x3DE466C, 64) && leads(0x5B3631D, 128) && leads(0x2469165, 256)
    ensures leads(0x25C2DCF, 512) && leads(0x4CC532C, 1024)
  {
    assert Times(27, 0x6400001, 0x4000000, 0x10000, 16, 0x10000, 16, 0x7C00037);
    assert Times(27, 0x6400001, 0x4000000, 0x7C00037, 32, 0x7C00037, 32, 0x3DE466C);
    assert Times(27, 0x6400001, 0x4000000, 0x3DE466C, 64, 0x3DE466C, 64, 0x5B3631D);
    assert Times(27, 0x6400001, 0x4000000, 0x5B3631D, 128, 0x5B3631D, 128, 0x2469165);
    assert Times(27, 0x6400001, 0x4000000, 0x2469165, 256, 0x2469165, 256, 0x25C2DCF);
    assert Times(27, 0x6400001, 0x4000000, 0x25C2DCF, 512, 0x25C2DCF, 512, 0x4CC532C);
  }

  lemma {:induction false} Chain27Part2(leads: Leading)
    requires Closed(27, 0x6400001, 0x4000000, leads)
    requires leads(0x4CC532C, 1024)
    ensures leads(0x2729A10, 2048) && leads(0x499D274, 4096) && leads(0x53BDB8, 32768) && leads(0x5120B39, 65536)
  {
    assert Times(27, 0x6400001, 0x4000000, 0x4CC532C, 1024, 0x4CC532C, 1024, 0x2729A10);
    assert Times(27, 0x6400001, 0x4000000, 0x2729A10, 2048, 0x2729A10, 2048, 0x499D274);
    assert Times(27, 0x6400001, 0x4000000, 0x499D274, 4096, 0x499D274, 4096, 0x1F0C68E);
    assert Times(27, 0x6400001, 0x4000000, 0x1F0C68E, 8192, 0x1F0C68E, 8192, 0x6DA46D);
    assert Times(27, 0x6400001, 0x4000000, 0x6DA46D, 16384, 0x6DA46D, 16384, 0x53BDB8);
    assert Times(27, 0x6400001, 0x4000000, 0x53BDB8, 32768, 0x53BDB8, 32768, 0x5120B39);
  }

  lemma {:induction false} Chain27Part3(leads: Leading)
    requires Closed(27, 0x6400001, 0x4000000, leads)
    requires leads(0x5120B39, 65536)
    ensures leads(0x6B2468C, 262144) && leads(0x2BE03F4, 524288) && leads(0x35615CE, 1048576)
    ensures leads(0xBBCEC9, 2097152) && leads(0x39950A6, 4194304)
  {
    assert Times(27, 0x6400001, 0x4000000, 0x5120B39, 65536, 0x5120B39, 65536, 0x60BAF35);
    assert Times(27, 0x6400001, 0x4000000, 0x60BAF35, 131072, 0x60BAF35, 131072, 0x6B2468C);
    assert Times(27, 0x6400001, 0x4000000, 0x6B2468C, 262144, 0x6B2468C, 262144, 0x2BE03F4);
    assert Times(27, 0x6400001, 0x4000000, 0x2BE03F4, 524288, 0x2BE03F4, 524288, 0x35615CE);
    assert Times(27, 0x6400001, 0x4000000, 0x35615CE, 1048576, 0x35615CE, 1048576, 0xBBCEC9);
    assert Times(27, 0x6400001, 0x4000000, 0xBBCEC9, 2097152, 0xBBCEC9, 2097152, 0x39950A6);
  }

  lemma {:induction false} Chain27Part4(leads: Leading)
    requires Closed(27, 0x6400001, 0x4000000, leads)
    requires leads(0x100, 8) && leads(0x3DE466C, 64) && leads(0x39950A6, 4194304)
    ensures leads(0x5466C4C, 72) && leads(0x3418D29, 16777216) && leads(0x2, 134217728)
  {
    assert Times(27, 0x6400001, 0x4000000, 0x39950A6, 4194304, 0x39950A6, 4194304, 0x5E449C4);
    assert Times(27, 0x6400001, 0x4000000, 0x5E449C4, 8388608, 0x5E449C4, 8388608, 0x3418D29);
    assert Times(27, 0x6400001, 0x4000000, 0x3418D29, 16777216, 0x3418D29, 16777216, 0x4BBAED1);
    assert Times(27, 0x6400001, 0x4000000, 0x4BBAED1, 33554432, 0x4BBAED1, 33554432, 0x7205C01);
    assert Times(27, 0x6400001, 0x4000000, 0x7205C01, 67108864, 0x7205C01, 67108864, 0x2);
    assert Times(27, 0x6400001, 0x4000000, 0x3DE466C, 64, 0x100, 8, 0x5466C4C);
  }

  lemma {:induction false} Chain27Part5(leads: Leading)
    requires Closed(27, 0x6400001, 0x4000000, leads)
    requires leads(0x2, 1) && leads(0x80, 7) && leads(0x800000, 23) && leads(0x7C00037, 32) && leads(0x5466C4C, 72)
    requires leads(0x25C2DCF, 512) && leads(0x4CC532C, 1024) && leads(0x499D274, 4096) && leads(0x6B2468C, 262144)
    ensures leads(0x5F9B18E, 127) && leads(0x7299664, 1031) && leads(0xA1FE0, 4169) && leads(0x7AE2A43, 262656)
  {
    assert Times(27, 0x6400001, 0x4000000, 0x6B2468C, 262144, 0x25C2DCF, 512, 0x7AE2A43);
    assert Times(27, 0x6400001, 0x4000000, 0x5466C4C, 72, 0x2, 1, 0x4CCD899);
    assert Times(27, 0x6400001, 0x4000000, 0x4CC532C, 1024, 0x80, 7, 0x7299664);
    assert Times(27, 0x6400001, 0x4000000, 0x7C00037, 32, 0x800000, 23, 0x1086F23);
    assert Times(27, 0x6400001, 0x4000000, 0x5466C4C, 72, 0x1086F23, 55, 0x5F9B18E);
    assert Times(27, 0x6400001, 0x4000000, 0x499D274, 4096, 0x4CCD899, 73, 0xA1FE0);
  }

  lemma {:induction false} Chain27Part6(leads: Leading)
    requires Closed(27, 0x6400001, 0x4000000, leads)
    requires leads(0x5F9B18E, 127) && leads(0x5B3631D, 128) && leads(0x2469165, 256) && leads(0x7299664, 1031)
    requires leads(0x2729A10, 2048) && leads(0xA1FE0, 4169) && leads(0x53BDB8, 32768) && leads(0x7AE2A43, 262656)
    ensures leads(0x60E16E7, 511) && leads(0x78D15B1, 265735) && leads(0x6753AB6, 299593)
  {
    assert Times(27, 0x6400001, 0x4000000, 0x5B3631D, 128, 0x5F9B18E, 127, 0x60348B2);
    assert Times(27, 0x6400001, 0x4000000, 0x2469165, 256, 0x60348B2, 255, 0x60E16E7);
    assert Times(27, 0x6400001, 0x4000000, 0x2729A10, 2048, 0x7299664, 1031, 0x4A0E91F);
    assert Times(27, 0x6400001, 0x4000000, 0x7AE2A43, 262656, 0x4A0E91F, 3079, 0x78D15B1);
    assert Times(27, 0x6400001, 0x4000000, 0x53BDB8, 32768, 0xA1FE0, 4169, 0x23006D7);
    assert Times(27, 0x6400001, 0x4000000, 0x7AE2A43, 262656, 0x23006D7, 36937, 0x6753AB6);
  }

  lemma {:induction false} Chain27Part7(leads: Leading)
    requires Closed(27, 0x6400001, 0x4000000, leads)
    requires leads(0x78D15B1, 265735) && leads(0x6753AB6, 299593) && leads(0x2BE03F4, 524288)
    requires leads(0x35615CE, 1048576) && leads(0xBBCEC9, 2097152) && leads(0x3418D29, 16777216)
    ensures leads(0x29C0CEC, 1838599) && leads(0x5E1B8B5, 19173961)
  {
    assert Times(27, 0x6400001, 0x4000000, 0x2BE03F4, 524288, 0x78D15B1, 265735, 0x603D3B9);
    assert Times(27, 0x6400001, 0x4000000, 0xBBCEC9, 2097152, 0x6753AB6, 299593, 0x3BDBE30);
    assert Times(27, 0x6400001, 0x4000000, 0x35615CE, 1048576, 0x603D3B9, 790023, 0x29C0CEC);
    assert Times(27, 0x6400001, 0x4000000, 0x3418D29, 16777216, 0x3BDBE30, 2396745, 0x5E1B8B5);
  }

  lemma {:induction false} Chain27(leads: Leading)
    requires Closed(27, 0x6400001, 0x4000000, leads)
    requires leads(0x2, 1) && leads(0x80, 7) && leads(0x100, 8) && leads(0x10000, 16) && leads(0x800000, 23)
    ensures leads(0x2, 134217728) && leads(0x60E16E7, 511) && leads(0x29C0CEC, 1838599)
    ensures leads(0x5E1B8B5, 19173961)
  {
    Chain27Part1(leads);
    Chain27Part2(leads);
    Chain27Part3(leads);
    Chain27Part4(leads);
    Chain27Part5(leads);
    Chain27Part6(leads);
    Chain27Part7(leads);
  }

  lemma {:induction false} Ends27()
    ensures var leads := LeadsOf(27);
            && leads(0x60E16E7, 511) && leads(0x29C0CEC, 1838599) && leads(0x5E1B8B5, 19173961)
            && leads(0x2, 134217728)
  {
    LowFour(27, 27, 5, 2, 1, 0x6400000);
    assert polynomials[27] == [27, 5, 2, 1];
    LeadsClosed(27, 0x6400001, 0x4000000);
    LeadsPower(27, 0x2, 1);
    LeadsPower(27, 0x80, 7);
    LeadsPower(27, 0x100, 8);
    LeadsPower(27, 0x10000, 16);
    LeadsPower(27, 0x800000, 23);
    Chain27(LeadsOf(27));
  }

  lemma {:induction false} Back27()
    ensures Returns(27, 134217727) && NoneReturns(27, [19173961, 1838599, 511])
  {
    Ends27();
    Closes(27, 134217728);
    NotBackEither(27, 0x60E16E7, 511, 1, []);
    assert [511] + [] == [511];
    NotBackEither(27, 0x29C0CEC, 1838599, 0, [511]);
    assert [1838599] + [511] == [1838599, 511];
    NotBackEither(27, 0x5E1B8B5, 19173961, 2, [1838599, 511]);
    assert [19173961] + [1838599, 511] == [19173961, 1838599, 511];
  }

  lemma {:induction false} Factors27()
    ensures Factored(134217727, [7, 73, 262657], [19173961, 1838599, 511])
  {
    ProductIs([262657], 262657, [], 1);
    ProductIs([73, 262657], 73, [262657], 262657);
    ProductIs([7, 73, 262657], 7, [73, 262657], 19173961);
    Prime262657();
    PrimesTo100();
    PrimesTo20();
  }

  lemma {:induction false} Length27()
    ensures Maximal(27)
  {
    Powers();
    Factors27();
    Back27();
    MaximalExactly(27, [7, 73, 262657], [19173961, 1838599, 511]);
  }

  // ---------------------------------------------------------------------------
  // Length 28
  // ---------------------------------------------------------------------------

  lemma {:induction false} Chain28Part1(leads: Leading)
    requires Closed(28, 0x9, 0x8000000, leads)
    requires leads(0x10000, 16)
    ensures leads(0x90, 32) && leads(0x4100, 64) && leads(0x10009, 128) && leads(0xD1, 256) && leads(0x5101, 512)
    ensures leads(0x1010008, 1024) && leads(0x9000D0, 2048) && leads(0x24C100, 4096)
  {
    assert Times(28, 0x9, 0x8000000, 0x10000, 16, 0x10000, 16, 0x90);
    assert Times(28, 0x9, 0x8000000, 0x90, 32, 0x90, 32, 0x4100);
    assert Times(28, 0x9, 0x8000000, 0x4100, 64, 0x4100, 64, 0x10009);
    assert Times(28, 0x9, 0x8000000, 0x10009, 128, 0x10009, 128, 0xD1);
    assert Times(28, 0x9, 0x8000000, 0xD1, 256, 0xD1, 256, 0x5101);
    assert Times(28, 0x9, 0x8000000, 0x5101, 512, 0x5101, 512, 0x1010008);
    assert Times(28, 0x9, 0x8000000, 0x1010008, 1024, 0x1010008, 1024, 0x9000D0);
    assert Times(28, 0x9, 0x8000000, 0x9000D0, 2048, 0x9000D0, 2048, 0x24C100);
  }

  lemma {:induction false} Chain28Part2(leads: Leading)
    requires Closed(28, 0x9, 0x8000000, leads)
    requires leads(0x24C100, 4096)
    ensures leads(0x3492D, 8192) && leads(0x410688, 16384) && leads(0xEC99, 65536) && leads(0x450416C, 131072)
    ensures leads(0x9088459, 262144) && leads(0x4803577, 524288) && leads(0xC351515, 1048576)
  {
    assert Times(28, 0x9, 0x8000000, 0x24C100, 4096, 0x24C100, 4096, 0x3492D);
    assert Times(28, 0x9, 0x8000000, 0x3492D, 8192, 0x3492D, 8192, 0x410688);
    assert Times(28, 0x9, 0x8000000, 0x410688, 16384, 0x410688, 16384, 0x1D40D0);
    assert Times(28, 0x9, 0x8000000, 0x1D40D0, 32768, 0x1D40D0, 32768, 0xEC99);
    assert Times(28, 0x9, 0x8000000, 0xEC99, 65536, 0xEC99, 65536, 0x450416C);
    assert Times(28, 0x9, 0x8000000, 0x450416C, 131072, 0x450416C, 131072, 0x9088459);
    assert Times(28, 0x9, 0x8000000, 0x9088459, 262144, 0x9088459, 262144, 0x4803577);
    assert Times(28, 0x9, 0x8000000, 0x4803577, 524288, 0x4803577, 524288, 0xC351515);
  }

  lemma {:induction false} Chain28Part3(leads: Leading)
    requires Closed(28, 0x9, 0x8000000, leads)
    requires leads(0xC351515, 1048576)
    ensures leads(0xC13D893, 2097152) && leads(0xC40D3EA, 4194304) && leads(0xC0C547B, 8388608)
    ensures leads(0xC10385E, 16777216) && leads(0x8408146, 33554432) && leads(0x4081022, 67108864)
    ensures leads(0x2, 268435456)
  {
    assert Times(28, 0x9, 0x8000000, 0xC351515, 1048576, 0xC351515, 1048576, 0xC13D893);
    assert Times(28, 0x9, 0x8000000, 0xC13D893, 2097152, 0xC13D893, 2097152, 0xC40D3EA);
    assert Times(28, 0x9, 0x8000000, 0xC40D3EA, 4194304, 0xC40D3EA, 4194304, 0xC0C547B);
    assert Times(28, 0x9, 0x8000000, 0xC0C547B, 8388608, 0xC0C547B, 8388608, 0xC10385E);
    assert Times(28, 0x9, 0x8000000, 0xC10385E, 16777216, 0xC10385E, 16777216, 0x8408146);
    assert Times(28, 0x9, 0x8000000, 0x8408146, 33554432, 0x8408146, 33554432, 0x4081022);
    assert Times(28, 0x9, 0x8000000, 0x4081022, 67108864, 0x4081022, 67108864, 0x8002004);
    assert Times(28, 0x9, 0x8000000, 0x8002004, 134217728, 0x8002004, 134217728, 0x2);
  }

  lemma {:induction false} Chain28Part4(leads: Leading)
    requires Closed(28, 0x9, 0x8000000, leads)
    requires leads(0x2, 1) && leads(0x4, 2) && leads(0x10, 4) && leads(0x10000, 16) && leads(0x4100, 64)
    requires leads(0xD1, 256) && leads(0x24C100, 4096) && leads(0x3492D, 8192) && leads(0xEC99, 65536)
    requires leads(0x9088459, 262144) && leads(0xC351515, 1048576)
    ensures leads(0x1A2, 257) && leads(0x20367B5, 12290) && leads(0xBD101FB, 262465) && leads(0xD101FE3, 262469)
    ensures leads(0x555B7B5, 1114128)
  {
    assert Times(28, 0x9, 0x8000000, 0xD1, 256, 0x2, 1, 0x1A2);
    assert Times(28, 0x9, 0x8000000, 0x1A2, 257, 0x4100, 64, 0x692200);
    assert Times(28, 0x9, 0x8000000, 0x9088459, 262144, 0x692200, 321, 0xBD101FB);
    assert Times(28, 0x9, 0x8000000, 0x24C100, 4096, 0x4, 2, 0x930400);
    assert Times(28, 0x9, 0x8000000, 0xBD101FB, 262465, 0x10, 4, 0xD101FE3);
    assert Times(28, 0x9, 0x8000000, 0xEC99, 65536, 0x10000, 16, 0xC99007E);
    assert Times(28, 0x9, 0x8000000, 0x3492D, 8192, 0x930400, 4098, 0x20367B5);
    assert Times(28, 0x9, 0x8000000, 0xC351515, 1048576, 0xC99007E, 65552, 0x555B7B5);
  }

  lemma {:induction false} Chain28Part5(leads: Leading)
    requires Closed(28, 0x9, 0x8000000, leads)
    requires leads(0x2, 1) && leads(0x100000, 20) && leads(0x10009, 128) && leads(0x5101, 512)
    requires leads(0x1010008, 1024) && leads(0x9000D0, 2048) && leads(0x20367B5, 12290) && leads(0x410688, 16384)
    requires leads(0xD101FE3, 262469) && leads(0x555B7B5, 1114128) && leads(0xC13D893, 2097152)
    requires leads(0xC40D3EA, 4194304)
    ensures leads(0x20012, 129) && leads(0x41147E5, 3072) && leads(0xE0CF910, 262509) && leads(0xB863D6, 2109954)
    ensures leads(0xDAF1A84, 5324816)
  {
    assert Times(28, 0x9, 0x8000000, 0x100000, 20, 0x100000, 20, 0x9000);
    assert Times(28, 0x9, 0x8000000, 0xD101FE3, 262469, 0x9000, 40, 0xE0CF910);
    assert Times(28, 0x9, 0x8000000, 0x20367B5, 12290, 0x5101, 512, 0xEF299EB);
    assert Times(28, 0x9, 0x8000000, 0x9000D0, 2048, 0x1010008, 1024, 0x41147E5);
    assert Times(28, 0x9, 0x8000000, 0xC13D893, 2097152, 0xEF299EB, 12802, 0xB863D6);
    assert Times(28, 0x9, 0x8000000, 0x555B7B5, 1114128, 0x410688, 16384, 0x78FC9EA);
    assert Times(28, 0x9, 0x8000000, 0xC40D3EA, 4194304, 0x78FC9EA, 1130512, 0xDAF1A84);
    assert Times(28, 0x9, 0x8000000, 0x10009, 128, 0x2, 1, 0x20012);
  }

  lemma {:induction false} Chain28Part6(leads: Leading)
    requires Closed(28, 0x9, 0x8000000, leads)
    requires leads(0x100, 8) && leads(0x90, 32) && leads(0x10009, 128) && leads(0x20012, 129) && leads(0x1A2, 257)
    requires leads(0x1010008, 1024) && leads(0x41147E5, 3072) && leads(0x24C100, 4096) && leads(0x20367B5, 12290)
    requires leads(0x410688, 16384) && leads(0x450416C, 131072) && leads(0xE0CF910, 262509)
    ensures leads(0x3634BC, 5120) && leads(0xCB1A641, 15498) && leads(0x9822CB0, 16513) && leads(0x82C41CC, 131361)
    ensures leads(0xDBB2E4D, 265581)
  {
    assert Times(28, 0x9, 0x8000000, 0x10009, 128, 0x100, 8, 0x1000900);
    assert Times(28, 0x9, 0x8000000, 0x1A2, 257, 0x90, 32, 0xCB20);
    assert Times(28, 0x9, 0x8000000, 0x410688, 16384, 0x20012, 129, 0x9822CB0);
    assert Times(28, 0x9, 0x8000000, 0x41147E5, 3072, 0x1000900, 136, 0xC316A8F);
    assert Times(28, 0x9, 0x8000000, 0x450416C, 131072, 0xCB20, 289, 0x82C41CC);
    assert Times(28, 0x9, 0x8000000, 0x24C100, 4096, 0x1010008, 1024, 0x3634BC);
    assert Times(28, 0x9, 0x8000000, 0xE0CF910, 262509, 0x41147E5, 3072, 0xDBB2E4D);
    assert Times(28, 0x9, 0x8000000, 0x20367B5, 12290, 0xC316A8F, 3208, 0xCB1A641);
  }

  lemma {:induction false} Chain28Part7(leads: Leading)
    requires Closed(28, 0x9, 0x8000000, leads)
    requires leads(0x3634BC, 5120) && leads(0xCB1A641, 15498) && leads(0x9822CB0, 16513) && leads(0xEC99, 65536)
    requires leads(0x450416C, 131072) && leads(0x82C41CC, 131361) && leads(0xBD101FB, 262465)
    requires leads(0xD101FE3, 262469) && leads(0xE0CF910, 262509) && leads(0xDBB2E4D, 265581)
    requires leads(0x555B7B5, 1114128) && leads(0xC13D893, 2097152) && leads(0xB863D6, 2109954)
    requires leads(0xDAF1A84, 5324816)
    ensures leads(0xBD1F05B, 343499) && leads(0x354AE33, 393581) && leads(0x274EA69, 1245489)
    ensures leads(0x5F37E2, 2113665) && leads(0xC564F23, 2375535) && leads(0x3EE2528, 5592405)
  {
    assert Times(28, 0x9, 0x8000000, 0xD101FE3, 262469, 0x3634BC, 5120, 0x7117C3E);
    assert Times(28, 0x9, 0x8000000, 0xEC99, 65536, 0xCB1A641, 15498, 0xF242E72);
    assert Times(28, 0x9, 0x8000000, 0xC13D893, 2097152, 0x9822CB0, 16513, 0x5F37E2);
    assert Times(28, 0x9, 0x8000000, 0xBD101FB, 262465, 0xF242E72, 81034, 0xBD1F05B);
    assert Times(28, 0x9, 0x8000000, 0xE0CF910, 262509, 0x450416C, 131072, 0x354AE33);
    assert Times(28, 0x9, 0x8000000, 0x555B7B5, 1114128, 0x82C41CC, 131361, 0x274EA69);
    assert Times(28, 0x9, 0x8000000, 0xB863D6, 2109954, 0xDBB2E4D, 265581, 0xC564F23);
    assert Times(28, 0x9, 0x8000000, 0xDAF1A84, 5324816, 0x7117C3E, 267589, 0x3EE2528);
  }

  lemma {:induction false} Chain28Part8(leads: Leading)
    requires Closed(28, 0x9, 0x8000000, leads)
    requires leads(0xBD1F05B, 343499) && leads(0x354AE33, 393581) && leads(0x4803577, 524288)
    requires leads(0x274EA69, 1245489) && leads(0xB863D6, 2109954) && leads(0xDAF1A84, 5324816)
    requires leads(0x3EE2528, 5592405) && leads(0xC0C547B, 8388608) && leads(0xC10385E, 16777216)
    requires leads(0x8408146, 33554432)
    ensures leads(0x8A22E1C, 6242685) && leads(0xEE3AB90, 9256395) && leads(0xE54DE9B, 22369621)
    ensures leads(0x3EAB207, 53687091)
  {
    assert Times(28, 0x9, 0x8000000, 0x4803577, 524288, 0xBD1F05B, 343499, 0x12AAFFF);
    assert Times(28, 0x9, 0x8000000, 0x4803577, 524288, 0x354AE33, 393581, 0x85B98A1);
    assert Times(28, 0x9, 0x8000000, 0xC0C547B, 8388608, 0x12AAFFF, 867787, 0xEE3AB90);
    assert Times(28, 0x9, 0x8000000, 0xDAF1A84, 5324816, 0x85B98A1, 917869, 0x8A22E1C);
    assert Times(28, 0x9, 0x8000000, 0xB863D6, 2109954, 0x274EA69, 1245489, 0xB1EC9ED);
    assert Times(28, 0x9, 0x8000000, 0xC10385E, 16777216, 0xB1EC9ED, 3355443, 0x88F500C);
    assert Times(28, 0x9, 0x8000000, 0xC10385E, 16777216, 0x3EE2528, 5592405, 0xE54DE9B);
    assert Times(28, 0x9, 0x8000000, 0x8408146, 33554432, 0x88F500C, 20132659, 0x3EAB207);
  }

  lemma {:induction false} Chain28Part9(leads: Leading)
    requires Closed(28, 0x9, 0x8000000, leads)
    requires leads(0xE54DE9B, 22369621) && leads(0x4081022, 67108864)
    ensures leads(0xC0151DF, 89478485)
  {
    assert Times(28, 0x9, 0x8000000, 0x4081022, 67108864, 0xE54DE9B, 22369621, 0xC0151DF);
  }

  lemma {:induction false} Chain28(leads: Leading)
    requires Closed(28, 0x9, 0x8000000, leads)
    requires leads(0x2, 1) && leads(0x4, 2) && leads(0x10, 4) && leads(0x100, 8) && leads(0x10000, 16)
    requires leads(0x100000, 20)
    ensures leads(0x2, 268435456) && leads(0x5F37E2, 2113665) && leads(0xC564F23, 2375535)
    ensures leads(0x8A22E1C, 6242685) && leads(0xEE3AB90, 9256395) && leads(0x3EAB207, 53687091)
    ensures leads(0xC0151DF, 89478485)
  {
    Chain28Part1(leads);
    Chain28Part2(leads);
    Chain28Part3(leads);
    Chain28Part4(leads);
    Chain28Part5(leads);
    Chain28Part6(leads);
    Chain28Part7(leads);
    Chain28Part8(leads);
    Chain28Part9(leads);
  }

  lemma {:induction false} Ends28()
    ensures var leads := LeadsOf(28);
            && leads(0x5F37E2, 2113665) && leads(0xC564F23, 2375535) && leads(0x8A22E1C, 6242685)
            && leads(0xEE3AB90, 9256395) && leads(0x3EAB207, 53687091) && leads(0xC0151DF, 89478485)
            && leads(0x2, 268435456)
  {
    LowTwo(28, 28, 25, 0x8);
    assert polynomials[28] == [28, 25];
    LeadsClosed(28, 0x9, 0x8000000);
    LeadsPower(28, 0x2, 1);
    LeadsPower(28, 0x4, 2);
    LeadsPower(28, 0x10, 4);
    LeadsPower(28, 0x100, 8);
    LeadsPower(28, 0x10000, 16);
    LeadsPower(28, 0x100000, 20);
    Chain28(LeadsOf(28));
  }

  lemma {:induction false} NotBack28From3()
    ensures NoneReturns(28, [6242685, 2375535, 2113665])
  {
    Ends28();
    NotBackEither(28, 0x5F37E2, 2113665, 0, []);
    assert [2113665] + [] == [2113665];
    NotBackEither(28, 0xC564F23, 2375535, 1, [2113665]);
    assert [2375535] + [2113665] == [2375535, 2113665];
    NotBackEither(28, 0x8A22E1C, 6242685, 0, [2375535, 2113665]);
    assert [6242685] + [2375535, 2113665] == [6242685, 2375535, 2113665];
  }

  lemma {:induction false} Back28()
    ensures Returns(28, 268435455) && NoneReturns(28, [89478485, 53687091, 9256395, 6242685, 2375535, 2113665])
  {
    Ends28();
    NotBack28From3();
    Closes(28, 268435456);
    NotBackEither(28, 0xEE3AB90, 9256395, 0, [6242685, 2375535, 2113665]);
    assert [9256395] + [6242685, 2375535, 2113665] == [9256395, 6242685, 2375535, 2113665];
    NotBackEither(28, 0x3EAB207, 53687091, 1, [9256395, 6242685, 2375535, 2113665]);
    assert [53687091] + [9256395, 6242685, 2375535, 2113665] == [53687091, 9256395, 6242685, 2375535, 2113665];
    NotBackEither(28, 0xC0151DF, 89478485, 1, [53687091, 9256395, 6242685, 2375535, 2113665]);
    assert [89478485] + [53687091, 9256395, 6242685, 2375535, 2113665]
      == [89478485, 53687091, 9256395, 6242685, 2375535, 2113665];
  }

  lemma {:induction false} ProductTail28()
    ensures Product([43, 113, 127]) == 617093
  {
    ProductIs([127], 127, [], 1);
    ProductIs([113, 127], 113, [127], 127);
    ProductIs([43, 113, 127], 43, [113, 127], 14351);
  }

  lemma {:induction false} Factors28()
    ensures Factored(268435455, [3, 5, 29, 43, 113, 127], [89478485, 53687091, 9256395, 6242685, 2375535, 2113665])
  {
    ProductTail28();
    ProductIs([29, 43, 113, 127], 29, [43, 113, 127], 617093);
    ProductIs([5, 29, 43, 113, 127], 5, [29, 43, 113, 127], 17895697);
    ProductIs([3, 5, 29, 43, 113, 127], 3, [5, 29, 43, 113, 127], 89478485);
    PrimesTo100();
    PrimesTo20();
    PrimesTo400();
  }

  lemma {:induction false} Length28()
    ensures Maximal(28)
  {
    Powers();
    Factors28();
    Back28();
    MaximalExactly(28, [3, 5, 29, 43, 113, 127], [89478485, 53687091, 9256395, 6242685, 2375535, 2113665]);
  }

  // ---------------------------------------------------------------------------
  // Length 29
  // ---------------------------------------------------------------------------

  lemma {:induction false} Chain29Part1(leads: Leading)
    requires Closed(29, 0x5, 0x10000000, leads)
    requires leads(0x10000, 16)
    ensures leads(0x440, 64) && leads(0x101000, 128) && leads(0x1002800, 256) && leads(0x4680000, 512)
    ensures leads(0x2822A00, 1024) && leads(0x4EE00A0, 2048)
  {
    assert Times(29, 0x5, 0x10000000, 0x10000, 16, 0x10000, 16, 0x28);
    assert Times(29, 0x5, 0x10000000, 0x28, 32, 0x28, 32, 0x440);
    assert Times(29, 0x5, 0x10000000, 0x440, 64, 0x440, 64, 0x101000);
    assert Times(29, 0x5, 0x10000000, 0x101000, 128, 0x101000, 128, 0x1002800);
    assert Times(29, 0x5, 0x10000000, 0x1002800, 256, 0x1002800, 256, 0x4680000);
    assert Times(29, 0x5, 0x10000000, 0x4680000, 512, 0x4680000, 512, 0x2822A00);
    assert Times(29, 0x5, 0x10000000, 0x2822A00, 1024, 0x2822A00, 1024, 0x4EE00A0);
  }

  lemma {:induction false} Chain29Part2(leads: Leading)
    requires Closed(29, 0x5, 0x10000000, leads)
    requires leads(0x4EE00A0, 2048)
    ensures leads(0x14FA0E00, 8192) && leads(0xADC02A5, 16384) && leads(0xAACE491, 32768)
    ensures leads(0x1EBAE98B, 65536) && leads(0x146BC2EA, 131072) && leads(0x1A867EC3, 262144)
  {
    assert Times(29, 0x5, 0x10000000, 0x4EE00A0, 2048, 0x4EE00A0, 2048, 0x2886C20);
    assert Times(29, 0x5, 0x10000000, 0x2886C20, 4096, 0x2886C20, 4096, 0x14FA0E00);
    assert Times(29, 0x5, 0x10000000, 0x14FA0E00, 8192, 0x14FA0E00, 8192, 0xADC02A5);
    assert Times(29, 0x5, 0x10000000, 0xADC02A5, 16384, 0xADC02A5, 16384, 0xAACE491);
    assert Times(29, 0x5, 0x10000000, 0xAACE491, 32768, 0xAACE491, 32768, 0x1EBAE98B);
    assert Times(29, 0x5, 0x10000000, 0x1EBAE98B, 65536, 0x1EBAE98B, 65536, 0x146BC2EA);
    assert Times(29, 0x5, 0x10000000, 0x146BC2EA, 131072, 0x146BC2EA, 131072, 0x1A867EC3);
  }

  lemma {:induction false} Chain29Part3(leads: Leading)
    requires Closed(29, 0x5, 0x10000000, leads)
    requires leads(0x1A867EC3, 262144)
    ensures leads(0x2980694, 2097152) && leads(0xAFA003D, 33554432)
  {
    assert Times(29, 0x5, 0x10000000, 0x1A867EC3, 262144, 0x1A867EC3, 262144, 0x17FE5220);
    assert Times(29, 0x5, 0x10000000, 0x17FE5220, 524288, 0x17FE5220, 524288, 0x1B040425);
    assert Times(29, 0x5, 0x10000000, 0x1B040425, 1048576, 0x1B040425, 1048576, 0x2980694);
    assert Times(29, 0x5, 0x10000000, 0x2980694, 2097152, 0x2980694, 2097152, 0xBE6310);
    assert Times(29, 0x5, 0x10000000, 0xBE6310, 4194304, 0xBE6310, 4194304, 0x140F8120);
    assert Times(29, 0x5, 0x10000000, 0x140F8120, 8388608, 0x140F8120, 8388608, 0xA810C07);
    assert Times(29, 0x5, 0x10000000, 0xA810C07, 16777216, 0xA810C07, 16777216, 0xAFA003D);
  }

  lemma {:induction false} Chain29Part4(leads: Leading)
    requires Closed(29, 0x5, 0x10000000, leads)
    requires leads(0x2, 1) && leads(0x4EE00A0, 2048) && leads(0x14FA0E00, 8192) && leads(0x1EBAE98B, 65536)
    requires leads(0xAFA003D, 33554432)
    ensures leads(0x1D04FE5E, 75777) && leads(0x2, 536870912)
  {
    assert Times(29, 0x5, 0x10000000, 0xAFA003D, 33554432, 0xAFA003D, 33554432, 0xAA807F1);
    assert Times(29, 0x5, 0x10000000, 0xAA807F1, 67108864, 0xAA807F1, 67108864, 0xABFFF01);
    assert Times(29, 0x5, 0x10000000, 0xABFFF01, 134217728, 0xABFFF01, 134217728, 0x1FFF8003);
    assert Times(29, 0x5, 0x10000000, 0x1FFF8003, 268435456, 0x1FFF8003, 268435456, 0x2);
    assert Times(29, 0x5, 0x10000000, 0x4EE00A0, 2048, 0x2, 1, 0x9DC0140);
    assert Times(29, 0x5, 0x10000000, 0x14FA0E00, 8192, 0x9DC0140, 2049, 0x1ED95DE3);
    assert Times(29, 0x5, 0x10000000, 0x1EBAE98B, 65536, 0x1ED95DE3, 10241, 0x1D04FE5E);
  }

  lemma {:induction false} Chain29Part5(leads: Leading)
    requires Closed(29, 0x5, 0x10000000, leads)
    requires leads(0x10000, 16) && leads(0x80000, 19) && leads(0x440, 64) && leads(0x101000, 128)
    requires leads(0x1002800, 256) && leads(0x2822A00, 1024) && leads(0xADC02A5, 16384) && leads(0x1D04FE5E, 75777)
    requires leads(0x146BC2EA, 131072)
    ensures leads(0xA004455, 1040) && leads(0x367B05, 16704) && leads(0x15EBF69F, 206849)
    ensures leads(0x167FCBD1, 207015)
  {
    assert Times(29, 0x5, 0x10000000, 0x146BC2EA, 131072, 0x1D04FE5E, 75777, 0x15EBF69F);
    assert Times(29, 0x5, 0x10000000, 0x80000, 19, 0x80000, 19, 0xA00);
    assert Times(29, 0x5, 0x10000000, 0x101000, 128, 0xA00, 38, 0xA00011);
    assert Times(29, 0x5, 0x10000000, 0x1002800, 256, 0x440, 64, 0xAA00AA);
    assert Times(29, 0x5, 0x10000000, 0x15EBF69F, 206849, 0xA00011, 166, 0x167FCBD1);
    assert Times(29, 0x5, 0x10000000, 0xADC02A5, 16384, 0xAA00AA, 320, 0x367B05);
    assert Times(29, 0x5, 0x10000000, 0x2822A00, 1024, 0x10000, 16, 0xA004455);
  }

  lemma {:induction false} Chain29Part6(leads: Leading)
    requires Closed(29, 0x5, 0x10000000, leads)
    requires leads(0x4680000, 512) && leads(0xA004455, 1040) && leads(0x367B05, 16704) && leads(0xAACE491, 32768)
    requires leads(0x15EBF69F, 206849) && leads(0x167FCBD1, 207015) && leads(0x1A867EC3, 262144)
    requires leads(0x2980694, 2097152)
    ensures leads(0x1B4FE068, 256999) && leads(0x1456BBA9, 486737) && leads(0xDB4BD5D, 2304167)
  {
    assert Times(29, 0x5, 0x10000000, 0x367B05, 16704, 0x4680000, 512, 0xDD4F9BF);
    assert Times(29, 0x5, 0x10000000, 0x367B05, 16704, 0xA004455, 1040, 0xB0EAF76);
    assert Times(29, 0x5, 0x10000000, 0xAACE491, 32768, 0xDD4F9BF, 17216, 0x1C329F9C);
    assert Times(29, 0x5, 0x10000000, 0x15EBF69F, 206849, 0xB0EAF76, 17744, 0xADAF9D);
    assert Times(29, 0x5, 0x10000000, 0x167FCBD1, 207015, 0x1C329F9C, 49984, 0x1B4FE068);
    assert Times(29, 0x5, 0x10000000, 0x2980694, 2097152, 0x167FCBD1, 207015, 0xDB4BD5D);
    assert Times(29, 0x5, 0x10000000, 0x1A867EC3, 262144, 0xADAF9D, 224593, 0x1456BBA9);
  }

  lemma {:induction false} Chain29(leads: Leading)
    requires Closed(29, 0x5, 0x10000000, leads)
    requires leads(0x2, 1) && leads(0x10000, 16) && leads(0x80000, 19)
    ensures leads(0x2, 536870912) && leads(0x1B4FE068, 256999) && leads(0x1456BBA9, 486737)
    ensures leads(0xDB4BD5D, 2304167)
  {
    Chain29Part1(leads);
    Chain29Part2(leads);
    Chain29Part3(leads);
    Chain29Part4(leads);
    Chain29Part5(leads);
    Chain29Part6(leads);
  }

  lemma {:induction false} Ends29()
    ensures var leads := LeadsOf(29);
            && leads(0x1B4FE068, 256999) && leads(0x1456BBA9, 486737) && leads(0xDB4BD5D, 2304167)
            && leads(0x2, 536870912)
  {
    LowTwo(29, 29, 27, 0x4);
    assert polynomials[29] == [29, 27];
    LeadsClosed(29, 0x5, 0x10000000);
    LeadsPower(29, 0x2, 1);
    LeadsPower(29, 0x10000, 16);
    LeadsPower(29, 0x80000, 19);
    Chain29(LeadsOf(29));
  }

  lemma {:induction false} Back29()
    ensures Returns(29, 536870911) && NoneReturns(29, [2304167, 486737, 256999])
  {
    Ends29();
    Closes(29, 536870912);
    NotBackEither(29, 0x1B4FE068, 256999, 0, []);
    assert [256999] + [] == [256999];
    NotBackEither(29, 0x1456BBA9, 486737, 3, [256999]);
    assert [486737] + [256999] == [486737, 256999];
    NotBackEither(29, 0xDB4BD5D, 2304167, 2, [486737, 256999]);
    assert [2304167] + [486737, 256999] == [2304167, 486737, 256999];
  }

  lemma {:induction false} Factors29()
    ensures Factored(536870911, [233, 1103, 2089], [2304167, 486737, 256999])
  {
    ProductIs([2089], 2089, [], 1);
    ProductIs([1103, 2089], 1103, [2089], 2089);
    ProductIs([233, 1103, 2089], 233, [1103, 2089], 2304167);
    PrimesTo2000();
    PrimesTo3000();
    PrimesTo400();
  }

  lemma {:induction false} Length29()
    ensures Maximal(29)
  {
    Powers();
    Factors29();
    Back29();
    MaximalExactly(29, [233, 1103, 2089], [2304167, 486737, 256999]);
  }

  // ---------------------------------------------------------------------------
  // Length 30
  // ---------------------------------------------------------------------------

  lemma {:induction false} Chain30Part1(leads: Leading)
    requires Closed(30, 0x25000001, 0x20000000, leads)
    requires leads(0x10000, 16)
    ensures leads(0x1A83DD8, 64) && leads(0x2757198A, 128) && leads(0x36C55979, 256) && leads(0x197AF424, 512)
    ensures leads(0x5401CBE, 1024) && leads(0x142C1DE5, 2048) && leads(0x1F9379DC, 4096)
  {
    assert Times(30, 0x25000001, 0x20000000, 0x10000, 16, 0x10000, 16, 0x3B000007);
    assert Times(30, 0x25000001, 0x20000000, 0x3B000007, 32, 0x3B000007, 32, 0x1A83DD8);
    assert Times(30, 0x25000001, 0x20000000, 0x1A83DD8, 64, 0x1A83DD8, 64, 0x2757198A);
    assert Times(30, 0x25000001, 0x20000000, 0x2757198A, 128, 0x2757198A, 128, 0x36C55979);
    assert Times(30, 0x25000001, 0x20000000, 0x36C55979, 256, 0x36C55979, 256, 0x197AF424);
    assert Times(30, 0x25000001, 0x20000000, 0x197AF424, 512, 0x197AF424, 512, 0x5401CBE);
    assert Times(30, 0x25000001, 0x20000000, 0x5401CBE, 1024, 0x5401CBE, 1024, 0x142C1DE5);
    assert Times(30, 0x25000001, 0x20000000, 0x142C1DE5, 2048, 0x142C1DE5, 2048, 0x1F9379DC);
  }

  lemma {:induction false} Chain30Part2(leads: Leading)
    requires Closed(30, 0x25000001, 0x20000000, leads)
    requires leads(0x1F9379DC, 4096)
    ensures leads(0xC75BF23, 8192) && leads(0x20C09631, 16384) && leads(0x1F33007, 32768)
    ensures leads(0x2306350B, 65536) && leads(0x365BA899, 262144) && leads(0x117A487D, 524288)
    ensures leads(0x37FE67F1, 1048576)
  {
    assert Times(30, 0x25000001, 0x20000000, 0x1F9379DC, 4096, 0x1F9379DC, 4096, 0xC75BF23);
    assert Times(30, 0x25000001, 0x20000000, 0xC75BF23, 8192, 0xC75BF23, 8192, 0x20C09631);
    assert Times(30, 0x25000001, 0x20000000, 0x20C09631, 16384, 0x20C09631, 16384, 0x1F33007);
    assert Times(30, 0x25000001, 0x20000000, 0x1F33007, 32768, 0x1F33007, 32768, 0x2306350B);
    assert Times(30, 0x25000001, 0x20000000, 0x2306350B, 65536, 0x2306350B, 65536, 0x29EEFFDF);
    assert Times(30, 0x25000001, 0x20000000, 0x29EEFFDF, 131072, 0x29EEFFDF, 131072, 0x365BA899);
    assert Times(30, 0x25000001, 0x20000000, 0x365BA899, 262144, 0x365BA899, 262144, 0x117A487D);
    assert Times(30, 0x25000001, 0x20000000, 0x117A487D, 524288, 0x117A487D, 524288, 0x37FE67F1);
  }

  lemma {:induction false} Chain30Part3(leads: Leading)
    requires Closed(30, 0x25000001, 0x20000000, leads)
    requires leads(0x37FE67F1, 1048576)
    ensures leads(0x1C291564, 2097152) && leads(0x13D53AE, 4194304) && leads(0x2E531, 8388608)
    ensures leads(0x1711051E, 16777216) && leads(0x2FCA6B5C, 33554432) && leads(0x142E8A23, 67108864)
    ensures leads(0x1D8629D7, 134217728) && leads(0xC6B5E03, 268435456)
  {
    assert Times(30, 0x25000001, 0x20000000, 0x37FE67F1, 1048576, 0x37FE67F1, 1048576, 0x1C291564);
    assert Times(30, 0x25000001, 0x20000000, 0x1C291564, 2097152, 0x1C291564, 2097152, 0x13D53AE);
    assert Times(30, 0x25000001, 0x20000000, 0x13D53AE, 4194304, 0x13D53AE, 4194304, 0x2E531);
    assert Times(30, 0x25000001, 0x20000000, 0x2E531, 8388608, 0x2E531, 8388608, 0x1711051E);
    assert Times(30, 0x25000001, 0x20000000, 0x1711051E, 16777216, 0x1711051E, 16777216, 0x2FCA6B5C);
    assert Times(30, 0x25000001, 0x20000000, 0x2FCA6B5C, 33554432, 0x2FCA6B5C, 33554432, 0x142E8A23);
    assert Times(30, 0x25000001, 0x20000000, 0x142E8A23, 67108864, 0x142E8A23, 67108864, 0x1D8629D7);
    assert Times(30, 0x25000001, 0x20000000, 0x1D8629D7, 134217728, 0x1D8629D7, 134217728, 0xC6B5E03);
  }

  lemma {:induction false} Chain30Part4(leads: Leading)
    requires Closed(30, 0x25000001, 0x20000000, leads)
    requires leads(0x200, 9) && leads(0x100000, 20) && leads(0x1A83DD8, 64) && leads(0x5401CBE, 1024)
    requires leads(0x1F9379DC, 4096) && leads(0x20C09631, 16384) && leads(0x2306350B, 65536)
    requires leads(0x37FE67F1, 1048576) && leads(0xC6B5E03, 268435456)
    ensures leads(0x1D7BB009, 73) && leads(0x1AE13B0, 1049600) && leads(0x307CDF0B, 1135636)
    ensures leads(0x2, 1073741824)
  {
    assert Times(30, 0x25000001, 0x20000000, 0xC6B5E03, 268435456, 0xC6B5E03, 268435456, 0x2BC19402);
    assert Times(30, 0x25000001, 0x20000000, 0x2BC19402, 536870912, 0x2BC19402, 536870912, 0x2);
    assert Times(30, 0x25000001, 0x20000000, 0x37FE67F1, 1048576, 0x5401CBE, 1024, 0x1AE13B0);
    assert Times(30, 0x25000001, 0x20000000, 0x1A83DD8, 64, 0x200, 9, 0x1D7BB009);
    assert Times(30, 0x25000001, 0x20000000, 0x1F9379DC, 4096, 0x100000, 20, 0x19C53D54);
    assert Times(30, 0x25000001, 0x20000000, 0x20C09631, 16384, 0x19C53D54, 4116, 0x32886943);
    assert Times(30, 0x25000001, 0x20000000, 0x2306350B, 65536, 0x32886943, 20500, 0xA52C17);
    assert Times(30, 0x25000001, 0x20000000, 0x1AE13B0, 1049600, 0xA52C17, 86036, 0x307CDF0B);
  }

  lemma {:induction false} Chain30Part5(leads: Leading)
    requires Closed(30, 0x25000001, 0x20000000, leads)
    requires leads(0x2, 1) && leads(0x10000, 16) && leads(0x20000, 17) && leads(0x1A83DD8, 64)
    requires leads(0x1D7BB009, 73) && leads(0x2757198A, 128) && leads(0x36C55979, 256) && leads(0x1F33007, 32768)
    requires leads(0x365BA899, 262144) && leads(0x307CDF0B, 1135636) && leads(0x1C291564, 2097152)
    requires leads(0x13D53AE, 4194304) && leads(0x1711051E, 16777216) && leads(0x142E8A23, 67108864)
    ensures leads(0x1300000F, 33) && leads(0x3507BB0, 65) && leads(0x1C0E76C9, 294985) && leads(0x35A1E6C2, 1135892)
    ensures leads(0x1290DCA4, 2097280) && leads(0x396D47BD, 88080384)
  {
    assert Times(30, 0x25000001, 0x20000000, 0x1F33007, 32768, 0x1D7BB009, 73, 0x1A6087D8);
    assert Times(30, 0x25000001, 0x20000000, 0x1C291564, 2097152, 0x2757198A, 128, 0x1290DCA4);
    assert Times(30, 0x25000001, 0x20000000, 0x307CDF0B, 1135636, 0x36C55979, 256, 0x35A1E6C2);
    assert Times(30, 0x25000001, 0x20000000, 0x365BA899, 262144, 0x1A6087D8, 32841, 0x1C0E76C9);
    assert Times(30, 0x25000001, 0x20000000, 0x1711051E, 16777216, 0x13D53AE, 4194304, 0x3875EF0);
    assert Times(30, 0x25000001, 0x20000000, 0x142E8A23, 67108864, 0x3875EF0, 20971520, 0x396D47BD);
    assert Times(30, 0x25000001, 0x20000000, 0x10000, 16, 0x20000, 17, 0x1300000F);
    assert Times(30, 0x25000001, 0x20000000, 0x1A83DD8, 64, 0x2, 1, 0x3507BB0);
  }

  lemma {:induction false} Chain30Part6(leads: Leading)
    requires Closed(30, 0x25000001, 0x20000000, leads)
    requires leads(0x200, 9) && leads(0x10000, 16) && leads(0x1300000F, 33) && leads(0x3507BB0, 65)
    requires leads(0x1D7BB009, 73) && leads(0x197AF424, 512) && leads(0x142C1DE5, 2048) && leads(0x1F9379DC, 4096)
    requires leads(0xC75BF23, 8192) && leads(0x1F33007, 32768) && leads(0x365BA899, 262144)
    requires leads(0x1C0E76C9, 294985)
    ensures leads(0x70B7F67, 4608) && leads(0x2B21B98A, 8265) && leads(0x3469ADA8, 10761)
    ensures leads(0x351FFFD3, 32801) && leads(0x2141381F, 262209) && leads(0x1AC9589C, 295001)
  {
    assert Times(30, 0x25000001, 0x20000000, 0x197AF424, 512, 0x200, 9, 0x10E84881);
    assert Times(30, 0x25000001, 0x20000000, 0x1C0E76C9, 294985, 0x10000, 16, 0x1AC9589C);
    assert Times(30, 0x25000001, 0x20000000, 0x1F33007, 32768, 0x1300000F, 33, 0x351FFFD3);
    assert Times(30, 0x25000001, 0x20000000, 0x365BA899, 262144, 0x3507BB0, 65, 0x2141381F);
    assert Times(30, 0x25000001, 0x20000000, 0xC75BF23, 8192, 0x1D7BB009, 73, 0x2B21B98A);
    assert Times(30, 0x25000001, 0x20000000, 0x1F9379DC, 4096, 0x197AF424, 512, 0x70B7F67);
    assert Times(30, 0x25000001, 0x20000000, 0x142C1DE5, 2048, 0x10E84881, 521, 0x14823D76);
    assert Times(30, 0x25000001, 0x20000000, 0xC75BF23, 8192, 0x14823D76, 2569, 0x3469ADA8);
  }

  lemma {:induction false} Chain30Part7(leads: Leading)
    requires Closed(30, 0x25000001, 0x20000000, leads)
    requires leads(0x70B7F67, 4608) && leads(0x2B21B98A, 8265) && leads(0x3469ADA8, 10761)
    requires leads(0x351FFFD3, 32801) && leads(0x2141381F, 262209) && leads(0x1C0E76C9, 294985)
    requires leads(0x1AC9589C, 295001) && leads(0x117A487D, 524288) && leads(0x1AE13B0, 1049600)
    requires leads(0x307CDF0B, 1135636) && leads(0x35A1E6C2, 1135892) && leads(0x1C291564, 2097152)
    requires leads(0x1290DCA4, 2097280)
    ensures leads(0x175AB4A7, 1082401) && leads(0x9FD7ED6, 1143901) && leads(0x36FE5EC0, 1146653)
    ensures leads(0x35DCBA6B, 1398101) && leads(0x3A72EB55, 2396745) && leads(0x2CB79BB5, 2916569)
  {
    assert Times(30, 0x25000001, 0x20000000, 0x1C0E76C9, 294985, 0x70B7F67, 4608, 0x34130F46);
    assert Times(30, 0x25000001, 0x20000000, 0x307CDF0B, 1135636, 0x2B21B98A, 8265, 0x9FD7ED6);
    assert Times(30, 0x25000001, 0x20000000, 0x35A1E6C2, 1135892, 0x3469ADA8, 10761, 0x36FE5EC0);
    assert Times(30, 0x25000001, 0x20000000, 0x1AE13B0, 1049600, 0x351FFFD3, 32801, 0x175AB4A7);
    assert Times(30, 0x25000001, 0x20000000, 0x35A1E6C2, 1135892, 0x2141381F, 262209, 0x35DCBA6B);
    assert Times(30, 0x25000001, 0x20000000, 0x117A487D, 524288, 0x1AC9589C, 295001, 0x18D19228);
    assert Times(30, 0x25000001, 0x20000000, 0x1C291564, 2097152, 0x34130F46, 299593, 0x3A72EB55);
    assert Times(30, 0x25000001, 0x20000000, 0x1290DCA4, 2097280, 0x18D19228, 819289, 0x2CB79BB5);
  }

  lemma {:induction false} Chain30Part8(leads: Leading)
    requires Closed(30, 0x25000001, 0x20000000, leads)
    requires leads(0x175AB4A7, 1082401) && leads(0x9FD7ED6, 1143901) && leads(0x36FE5EC0, 1146653)
    requires leads(0x35DCBA6B, 1398101) && leads(0x1290DCA4, 2097280) && leads(0x3A72EB55, 2396745)
    requires leads(0x2CB79BB5, 2916569) && leads(0x13D53AE, 4194304) && leads(0x2E531, 8388608)
    requires leads(0x1711051E, 16777216) && leads(0x2FCA6B5C, 33554432) && leads(0x396D47BD, 88080384)
    requires leads(0x1D8629D7, 134217728)
    ensures leads(0xE2F412B, 3243933) && leads(0x1F352B81, 7110873) && leads(0x82F4F1, 34636833)
    ensures leads(0x2D583D08, 89478485) && leads(0x22913985, 97612893) && leads(0x26571010, 153391689)
  {
    assert Times(30, 0x25000001, 0x20000000, 0x2FCA6B5C, 33554432, 0x175AB4A7, 1082401, 0x82F4F1);
    assert Times(30, 0x25000001, 0x20000000, 0x2E531, 8388608, 0x9FD7ED6, 1143901, 0x3A8E326);
    assert Times(30, 0x25000001, 0x20000000, 0x1290DCA4, 2097280, 0x36FE5EC0, 1146653, 0xE2F412B);
    assert Times(30, 0x25000001, 0x20000000, 0x396D47BD, 88080384, 0x35DCBA6B, 1398101, 0x2D583D08);
    assert Times(30, 0x25000001, 0x20000000, 0x1711051E, 16777216, 0x3A72EB55, 2396745, 0x3D144AC6);
    assert Times(30, 0x25000001, 0x20000000, 0x13D53AE, 4194304, 0x2CB79BB5, 2916569, 0x1F352B81);
    assert Times(30, 0x25000001, 0x20000000, 0x396D47BD, 88080384, 0x3A8E326, 9532509, 0x22913985);
    assert Times(30, 0x25000001, 0x20000000, 0x1D8629D7, 134217728, 0x3D144AC6, 19173961, 0x26571010);
  }

  lemma {:induction false} Chain30Part9(leads: Leading)
    requires Closed(30, 0x25000001, 0x20000000, leads)
    requires leads(0x2D583D08, 89478485) && leads(0xC6B5E03, 268435456)
    ensures leads(0x21B5EF12, 357913941)
  {
    assert Times(30, 0x25000001, 0x20000000, 0xC6B5E03, 268435456, 0x2D583D08, 89478485, 0x21B5EF12);
  }

  lemma {:induction false} Chain30(leads: Leading)
    requires Closed(30, 0x25000001, 0x20000000, leads)
    requires leads(0x2, 1) && leads(0x200, 9) && leads(0x10000, 16) && leads(0x20000, 17) && leads(0x100000, 20)
    ensures leads(0x2, 1073741824) && leads(0xE2F412B, 3243933) && leads(0x1F352B81, 7110873)
    ensures leads(0x82F4F1, 34636833) && leads(0x22913985, 97612893) && leads(0x26571010, 153391689)
    ensures leads(0x21B5EF12, 357913941)
  {
    Chain30Part1(leads);
    Chain30Part2(leads);
    Chain30Part3(leads);
    Chain30Part4(leads);
    Chain30Part5(leads);
    Chain30Part6(leads);
    Chain30Part7(leads);
    Chain30Part8(leads);
    Chain30Part9(leads);
  }

  lemma {:induction false} Ends30()
    ensures var leads := LeadsOf(30);
            && leads(0xE2F412B, 3243933) && leads(0x1F352B81, 7110873) && leads(0x82F4F1, 34636833)
            && leads(0x22913985, 97612893) && leads(0x26571010, 153391689) && leads(0x21B5EF12, 357913941)
            && leads(0x2, 1073741824)
  {
    LowFour(30, 30, 6, 4, 1, 0x25000000);
    assert polynomials[30] == [30, 6, 4, 1];
    LeadsClosed(30, 0x25000001, 0x20000000);
    LeadsPower(30, 0x2, 1);
    LeadsPower(30, 0x200, 9);
    LeadsPower(30, 0x10000, 16);
    LeadsPower(30, 0x20000, 17);
    LeadsPower(30, 0x100000, 20);
    Chain30(LeadsOf(30));
  }

  lemma {:induction false} NotBack30From4()
    ensures NoneReturns(30, [34636833, 7110873, 3243933])
  {
    Ends30();
    NotBackEither(30, 0xE2F412B, 3243933, 1, []);
    assert [3243933] + [] == [3243933];
    NotBackEither(30, 0x1F352B81, 7110873, 7, [3243933]);
    assert [7110873] + [3243933] == [7110873, 3243933];
    NotBackEither(30, 0x82F4F1, 34636833, 4, [7110873, 3243933]);
    assert [34636833] + [7110873, 3243933] == [34636833, 7110873, 3243933];
  }

  lemma {:induction false} NotBack30From1()
    ensures NoneReturns(30, [357913941, 153391689, 97612893, 34636833, 7110873, 3243933])
  {
    Ends30();
    NotBack30From4();
    NotBackEither(30, 0x22913985, 97612893, 2, [34636833, 7110873, 3243933]);
    assert [97612893] + [34636833, 7110873, 3243933] == [97612893, 34636833, 7110873, 3243933];
    NotBackEither(30, 0x26571010, 153391689, 0, [97612893, 34636833, 7110873, 3243933]);
    assert [153391689] + [97612893, 34636833, 7110873, 3243933] == [153391689, 97612893, 34636833, 7110873, 3243933];
    NotBackEither(30, 0x21B5EF12, 357913941, 0, [153391689, 97612893, 34636833, 7110873, 3243933]);
    assert [357913941] + [153391689, 97612893, 34636833, 7110873, 3243933]
      == [357913941, 153391689, 97612893, 34636833, 7110873, 3243933];
  }

  lemma {:induction false} Back30()
    ensures Returns(30, 1073741823) && NoneReturns(30, [357913941, 357913941, 153391689, 97612893, 34636833,
      7110873, 3243933])
  {
    Ends30();
    NotBack30From1();
    Closes(30, 1073741824);
    NotBackEither(30, 0x21B5EF12, 357913941, 0, [357913941, 153391689, 97612893, 34636833, 7110873, 3243933]);
    assert [357913941] + [357913941, 153391689, 97612893, 34636833, 7110873, 3243933]
      == [357913941, 357913941, 153391689, 97612893, 34636833, 7110873, 3243933];
  }

  lemma {:induction false} ProductTail30()
    ensures Product([31, 151, 331]) == 1549411
  {
    ProductIs([331], 331, [], 1);
    ProductIs([151, 331], 151, [331], 331);
    ProductIs([31, 151, 331], 31, [151, 331], 49981);
  }

  lemma {:induction false} Factors30()
    ensures Factored(1073741823, [3, 3, 7, 11, 31, 151, 331], [357913941, 357913941, 153391689, 97612893, 34636833,
      7110873, 3243933])
  {
    ProductTail30();
    ProductIs([11, 31, 151, 331], 11, [31, 151, 331], 1549411);
    ProductIs([7, 11, 31, 151, 331], 7, [11, 31, 151, 331], 17043521);
    ProductIs([3, 7, 11, 31, 151, 331], 3, [7, 11, 31, 151, 331], 119304647);
    ProductIs([3, 3, 7, 11, 31, 151, 331], 3, [3, 7, 11, 31, 151, 331], 357913941);
    PrimesTo100();
    PrimesTo20();
    PrimesTo400();
  }

  lemma {:induction false} Length30()
    ensures Maximal(30)
  {
    Powers();
    Factors30();
    Back30();
    MaximalExactly(30, [3, 3, 7, 11, 31, 151, 331], [357913941, 357913941, 153391689, 97612893, 34636833, 7110873,
      3243933]);
  }

  // ---------------------------------------------------------------------------
  // Length 31
  // ---------------------------------------------------------------------------

  lemma {:induction false} Chain31Part1(leads: Leading)
    requires Closed(31, 0x9, 0x40000000, leads)
    requires leads(0x10000, 16)
    ensures leads(0x16, 2048)
  {
    assert Times(31, 0x9, 0x40000000, 0x10000, 16, 0x10000, 16, 0x12);
    assert Times(31, 0x9, 0x40000000, 0x12, 32, 0x12, 32, 0x104);
    assert Times(31, 0x9, 0x40000000, 0x104, 64, 0x104, 64, 0x10010);
    assert Times(31, 0x9, 0x40000000, 0x10010, 128, 0x10010, 128, 0x112);
    assert Times(31, 0x9, 0x40000000, 0x112, 256, 0x112, 256, 0x10104);
    assert Times(31, 0x9, 0x40000000, 0x10104, 512, 0x10104, 512, 0x10002);
    assert Times(31, 0x9, 0x40000000, 0x10002, 1024, 0x10002, 1024, 0x16);
  }

  lemma {:induction false} Chain31Part2(leads: Leading)
    requires Closed(31, 0x9, 0x40000000, leads)
    requires leads(0x16, 2048)
    ensures leads(0x6, 262144)
  {
    assert Times(31, 0x9, 0x40000000, 0x16, 2048, 0x16, 2048, 0x114);
    assert Times(31, 0x9, 0x40000000, 0x114, 4096, 0x114, 4096, 0x10110);
    assert Times(31, 0x9, 0x40000000, 0x10110, 8192, 0x10110, 8192, 0x10112);
    assert Times(31, 0x9, 0x40000000, 0x10112, 16384, 0x10112, 16384, 0x10116);
    assert Times(31, 0x9, 0x40000000, 0x10116, 32768, 0x10116, 32768, 0x10106);
    assert Times(31, 0x9, 0x40000000, 0x10106, 65536, 0x10106, 65536, 0x10006);
    assert Times(31, 0x9, 0x40000000, 0x10006, 131072, 0x10006, 131072, 0x6);
  }

  lemma {:induction false} Chain31Part3(leads: Leading)
    requires Closed(31, 0x9, 0x40000000, leads)
    requires leads(0x6, 262144)
    ensures leads(0x10102, 33554432)
  {
    assert Times(31, 0x9, 0x40000000, 0x6, 262144, 0x6, 262144, 0x14);
    assert Times(31, 0x9, 0x40000000, 0x14, 524288, 0x14, 524288, 0x110);
    assert Times(31, 0x9, 0x40000000, 0x110, 1048576, 0x110, 1048576, 0x10100);
    assert Times(31, 0x9, 0x40000000, 0x10100, 2097152, 0x10100, 2097152, 0x10012);
    assert Times(31, 0x9, 0x40000000, 0x10012, 4194304, 0x10012, 4194304, 0x116);
    assert Times(31, 0x9, 0x40000000, 0x116, 8388608, 0x116, 8388608, 0x10114);
    assert Times(31, 0x9, 0x40000000, 0x10114, 16777216, 0x10114, 16777216, 0x10102);
  }

  lemma {:induction false} Chain31Part4(leads: Leading)
    requires Closed(31, 0x9, 0x40000000, leads)
    requires leads(0x10102, 33554432)
    ensures leads(0x2, 2147483648)
  {
    assert Times(31, 0x9, 0x40000000, 0x10102, 33554432, 0x10102, 33554432, 0x10016);
    assert Times(31, 0x9, 0x40000000, 0x10016, 67108864, 0x10016, 67108864, 0x106);
    assert Times(31, 0x9, 0x40000000, 0x106, 134217728, 0x106, 134217728, 0x10014);
    assert Times(31, 0x9, 0x40000000, 0x10014, 268435456, 0x10014, 268435456, 0x102);
    assert Times(31, 0x9, 0x40000000, 0x102, 536870912, 0x102, 536870912, 0x10004);
    assert Times(31, 0x9, 0x40000000, 0x10004, 1073741824, 0x10004, 1073741824, 0x2);
  }

  lemma {:induction false} Chain31(leads: Leading)
    requires Closed(31, 0x9, 0x40000000, leads)
    requires leads(0x2, 1) && leads(0x10000, 16)
    ensures leads(0x2, 2147483648)
  {
    Chain31Part1(leads);
    Chain31Part2(leads);
    Chain31Part3(leads);
    Chain31Part4(leads);
  }

  lemma {:induction false} Ends31()
    ensures var leads := LeadsOf(31);
            leads(0x2, 1) && leads(0x2, 2147483648)
  {
    LowTwo(31, 31, 28, 0x8);
    assert polynomials[31] == [31, 28];
    LeadsClosed(31, 0x9, 0x40000000);
    LeadsPower(31, 0x2, 1);
    LeadsPower(31, 0x10000, 16);
    Chain31(LeadsOf(31));
  }

  lemma {:induction false} Back31()
    ensures Returns(31, 2147483647) && NoneReturns(31, [1])
  {
    Ends31();
    Closes(31, 2147483648);
    NotBackEither(31, 0x2, 1, 0, []);
    assert [1] + [] == [1];
  }

  lemma {:induction false} Length31()
    ensures Maximal(31)
  {
    Powers();
    ProductIs([2147483647], 2147483647, [], 1);
    Prime2147483647();
    Back31();
    MaximalExactly(31, [2147483647], [1]);
  }

  // ---------------------------------------------------------------------------
  // Length 32
  // ---------------------------------------------------------------------------

  lemma {:induction false} Chain32Part1(leads: Leading)
    requires Closed(32, 0xC0000401, 0x80000000, leads)
    requires leads(0x10000, 16)
    ensures leads(0x9B79E4A3, 64) && leads(0x93638245, 128) && leads(0x71C67D56, 256) && leads(0xCE51A549, 512)
    ensures leads(0x5F638238, 1024) && leads(0x31B4E7C9, 2048) && leads(0x22D27E90, 4096)
  {
    assert Times(32, 0xC0000401, 0x80000000, 0x10000, 16, 0x10000, 16, 0xC0000401);
    assert Times(32, 0xC0000401, 0x80000000, 0xC0000401, 32, 0xC0000401, 32, 0x9B79E4A3);
    assert Times(32, 0xC0000401, 0x80000000, 0x9B79E4A3, 64, 0x9B79E4A3, 64, 0x93638245);
    assert Times(32, 0xC0000401, 0x80000000, 0x93638245, 128, 0x93638245, 128, 0x71C67D56);
    assert Times(32, 0xC0000401, 0x80000000, 0x71C67D56, 256, 0x71C67D56, 256, 0xCE51A549);
    assert Times(32, 0xC0000401, 0x80000000, 0xCE51A549, 512, 0xCE51A549, 512, 0x5F638238);
    assert Times(32, 0xC0000401, 0x80000000, 0x5F638238, 1024, 0x5F638238, 1024, 0x31B4E7C9);
    assert Times(32, 0xC0000401, 0x80000000, 0x31B4E7C9, 2048, 0x31B4E7C9, 2048, 0x22D27E90);
  }

  lemma {:induction false} Chain32Part2(leads: Leading)
    requires Closed(32, 0xC0000401, 0x80000000, leads)
    requires leads(0x22D27E90, 4096)
    ensures leads(0x648F10A4, 8192) && leads(0x6BC0FB49, 16384) && leads(0x79431ADE, 32768)
    ensures leads(0xED44E67F, 65536) && leads(0x39BC6694, 131072) && leads(0x94640576, 262144)
    ensures leads(0x41CF084F, 524288) && leads(0xEAF78AAE, 1048576)
  {
    assert Times(32, 0xC0000401, 0x80000000, 0x22D27E90, 4096, 0x22D27E90, 4096, 0x648F10A4);
    assert Times(32, 0xC0000401, 0x80000000, 0x648F10A4, 8192, 0x648F10A4, 8192, 0x6BC0FB49);
    assert Times(32, 0xC0000401, 0x80000000, 0x6BC0FB49, 16384, 0x6BC0FB49, 16384, 0x79431ADE);
    assert Times(32, 0xC0000401, 0x80000000, 0x79431ADE, 32768, 0x79431ADE, 32768, 0xED44E67F);
    assert Times(32, 0xC0000401, 0x80000000, 0xED44E67F, 65536, 0xED44E67F, 65536, 0x39BC6694);
    assert Times(32, 0xC0000401, 0x80000000, 0x39BC6694, 131072, 0x39BC6694, 131072, 0x94640576);
    assert Times(32, 0xC0000401, 0x80000000, 0x94640576, 262144, 0x94640576, 262144, 0x41CF084F);
    assert Times(32, 0xC0000401, 0x80000000, 0x41CF084F, 524288, 0x41CF084F, 524288, 0xEAF78AAE);
  }

  lemma {:induction false} Chain32Part3(leads: Leading)
    requires Closed(32, 0xC0000401, 0x80000000, leads)
    requires leads(0xEAF78AAE, 1048576)
    ensures leads(0x5C5B2D49, 2097152) && leads(0xE84C407E, 4194304) && leads(0x16DEBD95, 8388608)
    ensures leads(0x6890E3BF, 16777216) && leads(0xA5D98CA7, 33554432) && leads(0x7748C7F3, 67108864)
    ensures leads(0x3C644E45, 134217728) && leads(0x3A8F4C1A, 268435456)
  {
    assert Times(32, 0xC0000401, 0x80000000, 0xEAF78AAE, 1048576, 0xEAF78AAE, 1048576, 0x5C5B2D49);
    assert Times(32, 0xC0000401, 0x80000000, 0x5C5B2D49, 2097152, 0x5C5B2D49, 2097152, 0xE84C407E);
    assert Times(32, 0xC0000401, 0x80000000, 0xE84C407E, 4194304, 0xE84C407E, 4194304, 0x16DEBD95);
    assert Times(32, 0xC0000401, 0x80000000, 0x16DEBD95, 8388608, 0x16DEBD95, 8388608, 0x6890E3BF);
    assert Times(32, 0xC0000401, 0x80000000, 0x6890E3BF, 16777216, 0x6890E3BF, 16777216, 0xA5D98CA7);
    assert Times(32, 0xC0000401, 0x80000000, 0xA5D98CA7, 33554432, 0xA5D98CA7, 33554432, 0x7748C7F3);
    assert Times(32, 0xC0000401, 0x80000000, 0x7748C7F3, 67108864, 0x7748C7F3, 67108864, 0x3C644E45);
    assert Times(32, 0xC0000401, 0x80000000, 0x3C644E45, 134217728, 0x3C644E45, 134217728, 0x3A8F4C1A);
  }

  lemma {:induction false} Chain32Part4(leads: Leading)
    requires Closed(32, 0xC0000401, 0x80000000, leads)
    requires leads(0x8000, 15) && leads(0x1000000, 24) && leads(0x71C67D56, 256) && leads(0xCE51A549, 512)
    requires leads(0xED44E67F, 65536) && leads(0x39BC6694, 131072) && leads(0x3A8F4C1A, 268435456)
    ensures leads(0xADBCF051, 63) && leads(0x8C220BC5, 768) && leads(0xE8DD4917, 196608)
    ensures leads(0x8D8C5FFE, 536870912) && leads(0x3BFDF30B, 1073741824) && leads(0x2, 4294967296)
  {
    assert Times(32, 0xC0000401, 0x80000000, 0x3A8F4C1A, 268435456, 0x3A8F4C1A, 268435456, 0x8D8C5FFE);
    assert Times(32, 0xC0000401, 0x80000000, 0x8D8C5FFE, 536870912, 0x8D8C5FFE, 536870912, 0x3BFDF30B);
    assert Times(32, 0xC0000401, 0x80000000, 0x3BFDF30B, 1073741824, 0x3BFDF30B, 1073741824, 0xE738022);
    assert Times(32, 0xC0000401, 0x80000000, 0xE738022, 2147483648, 0xE738022, 2147483648, 0x2);
    assert Times(32, 0xC0000401, 0x80000000, 0x1000000, 24, 0x1000000, 24, 0x46DADADB);
    assert Times(32, 0xC0000401, 0x80000000, 0xCE51A549, 512, 0x71C67D56, 256, 0x8C220BC5);
    assert Times(32, 0xC0000401, 0x80000000, 0x39BC6694, 131072, 0xED44E67F, 65536, 0xE8DD4917);
    assert Times(32, 0xC0000401, 0x80000000, 0x46DADADB, 48, 0x8000, 15, 0xADBCF051);
  }

  lemma {:induction false} Chain32Part5(leads: Leading)
    requires Closed(32, 0xC0000401, 0x80000000, leads)
    requires leads(0xADBCF051, 63) && leads(0x9B79E4A3, 64) && leads(0x93638245, 128) && leads(0x8C220BC5, 768)
    requires leads(0x5F638238, 1024) && leads(0x31B4E7C9, 2048) && leads(0x22D27E90, 4096)
    requires leads(0x648F10A4, 8192) && leads(0xE8DD4917, 196608) && leads(0x94640576, 262144)
    requires leads(0x41CF084F, 524288) && leads(0xEAF78AAE, 1048576) && leads(0x5C5B2D49, 2097152)
    ensures leads(0x38E33EAB, 255) && leads(0xF2B8CF35, 3840) && leads(0xBAD1E694, 12288)
    ensures leads(0x5F605345, 983040) && leads(0x29C5C1E9, 3145728)
  {
    assert Times(32, 0xC0000401, 0x80000000, 0x9B79E4A3, 64, 0xADBCF051, 63, 0xA9B1C322);
    assert Times(32, 0xC0000401, 0x80000000, 0x93638245, 128, 0xA9B1C322, 127, 0x38E33EAB);
    assert Times(32, 0xC0000401, 0x80000000, 0x5F638238, 1024, 0x8C220BC5, 768, 0xEDB1825C);
    assert Times(32, 0xC0000401, 0x80000000, 0x31B4E7C9, 2048, 0xEDB1825C, 1792, 0xF2B8CF35);
    assert Times(32, 0xC0000401, 0x80000000, 0x648F10A4, 8192, 0x22D27E90, 4096, 0xBAD1E694);
    assert Times(32, 0xC0000401, 0x80000000, 0x94640576, 262144, 0xE8DD4917, 196608, 0x6D2E6FA3);
    assert Times(32, 0xC0000401, 0x80000000, 0x41CF084F, 524288, 0x6D2E6FA3, 458752, 0x5F605345);
    assert Times(32, 0xC0000401, 0x80000000, 0x5C5B2D49, 2097152, 0xEAF78AAE, 1048576, 0x29C5C1E9);
  }

  lemma {:induction false} Chain32Part6(leads: Leading)
    requires Closed(32, 0xC0000401, 0x80000000, leads)
    requires leads(0x8000, 15) && leads(0x200000, 21) && leads(0x2000000, 25) && leads(0x4000000, 26)
    requires leads(0x9B79E4A3, 64) && leads(0x38E33EAB, 255) && leads(0x71C67D56, 256) && leads(0x8C220BC5, 768)
    requires leads(0xF2B8CF35, 3840) && leads(0x5F605345, 983040) && leads(0x6890E3BF, 16777216)
    requires leads(0xA5D98CA7, 33554432)
    ensures leads(0xA4D08146, 341) && leads(0x2BF47A79, 819) && leads(0xA6AB387D, 3855) && leads(0x11693F48, 4095)
    ensures leads(0x3B07323F, 983295) && leads(0xE5B55C5D, 50331648)
  {
    assert Times(32, 0xC0000401, 0x80000000, 0xA5D98CA7, 33554432, 0x6890E3BF, 16777216, 0xE5B55C5D);
    assert Times(32, 0xC0000401, 0x80000000, 0x2000000, 25, 0x4000000, 26, 0x76D6DADB);
    assert Times(32, 0xC0000401, 0x80000000, 0xF2B8CF35, 3840, 0x8000, 15, 0xA6AB387D);
    assert Times(32, 0xC0000401, 0x80000000, 0x9B79E4A3, 64, 0x200000, 21, 0x73E97C26);
    assert Times(32, 0xC0000401, 0x80000000, 0x8C220BC5, 768, 0x76D6DADB, 51, 0x2BF47A79);
    assert Times(32, 0xC0000401, 0x80000000, 0x71C67D56, 256, 0x73E97C26, 85, 0xA4D08146);
    assert Times(32, 0xC0000401, 0x80000000, 0xF2B8CF35, 3840, 0x38E33EAB, 255, 0x11693F48);
    assert Times(32, 0xC0000401, 0x80000000, 0x5F605345, 983040, 0x38E33EAB, 255, 0x3B07323F);
  }

  lemma {:induction false} Chain32Part7(leads: Leading)
    requires Closed(32, 0xC0000401, 0x80000000, leads)
    requires leads(0xA4D08146, 341) && leads(0x2BF47A79, 819) && leads(0x5F638238, 1024) && leads(0xA6AB387D, 3855)
    requires leads(0x11693F48, 4095) && leads(0x22D27E90, 4096) && leads(0xBAD1E694, 12288)
    requires leads(0x6BC0FB49, 16384) && leads(0xE8DD4917, 196608) && leads(0x5F605345, 983040)
    ensures leads(0xCF9C131F, 21845) && leads(0x3CA18D6F, 32767) && leads(0x700C770A, 209715)
    ensures leads(0xCC5B7E6C, 986895)
  {
    assert Times(32, 0xC0000401, 0x80000000, 0x5F638238, 1024, 0xA4D08146, 341, 0x7ECA9BB);
    assert Times(32, 0xC0000401, 0x80000000, 0xBAD1E694, 12288, 0x2BF47A79, 819, 0x335F7D80);
    assert Times(32, 0xC0000401, 0x80000000, 0x22D27E90, 4096, 0x7ECA9BB, 1365, 0x33FE71F9);
    assert Times(32, 0xC0000401, 0x80000000, 0x5F605345, 983040, 0xA6AB387D, 3855, 0xCC5B7E6C);
    assert Times(32, 0xC0000401, 0x80000000, 0xBAD1E694, 12288, 0x11693F48, 4095, 0xD5E07FA4);
    assert Times(32, 0xC0000401, 0x80000000, 0x6BC0FB49, 16384, 0x33FE71F9, 5461, 0xCF9C131F);
    assert Times(32, 0xC0000401, 0x80000000, 0xE8DD4917, 196608, 0x335F7D80, 13107, 0x700C770A);
    assert Times(32, 0xC0000401, 0x80000000, 0x6BC0FB49, 16384, 0xD5E07FA4, 16383, 0x3CA18D6F);
  }

  lemma {:induction false} Chain32Part8(leads: Leading)
    requires Closed(32, 0xC0000401, 0x80000000, leads)
    requires leads(0xCF9C131F, 21845) && leads(0x3CA18D6F, 32767) && leads(0x79431ADE, 32768)
    requires leads(0xED44E67F, 65536) && leads(0x700C770A, 209715) && leads(0x94640576, 262144)
    requires leads(0x3B07323F, 983295) && leads(0xCC5B7E6C, 986895) && leads(0xEAF78AAE, 1048576)
    requires leads(0x29C5C1E9, 3145728) && leads(0xE84C407E, 4194304) && leads(0xE5B55C5D, 50331648)
    ensures leads(0x96A2713F, 65535) && leads(0x232417F7, 3355443) && leads(0xC14ECA7E, 4129023)
    ensures leads(0x6E0FC870, 5592405) && leads(0xAED1FF6C, 51318543)
  {
    assert Times(32, 0xC0000401, 0x80000000, 0xED44E67F, 65536, 0xCF9C131F, 21845, 0x55105218);
    assert Times(32, 0xC0000401, 0x80000000, 0x79431ADE, 32768, 0x3CA18D6F, 32767, 0x96A2713F);
    assert Times(32, 0xC0000401, 0x80000000, 0x94640576, 262144, 0x55105218, 87381, 0xEF56571D);
    assert Times(32, 0xC0000401, 0x80000000, 0x29C5C1E9, 3145728, 0x700C770A, 209715, 0x232417F7);
    assert Times(32, 0xC0000401, 0x80000000, 0xEAF78AAE, 1048576, 0xEF56571D, 349525, 0xBA449D6D);
    assert Times(32, 0xC0000401, 0x80000000, 0x29C5C1E9, 3145728, 0x3B07323F, 983295, 0xC14ECA7E);
    assert Times(32, 0xC0000401, 0x80000000, 0xE5B55C5D, 50331648, 0xCC5B7E6C, 986895, 0xAED1FF6C);
    assert Times(32, 0xC0000401, 0x80000000, 0xE84C407E, 4194304, 0xBA449D6D, 1398101, 0x6E0FC870);
  }

  lemma {:induction false} Chain32Part9(leads: Leading)
    requires Closed(32, 0xC0000401, 0x80000000, leads)
    requires leads(0x232417F7, 3355443) && leads(0xC14ECA7E, 4129023) && leads(0xE84C407E, 4194304)
    requires leads(0x6E0FC870, 5592405) && leads(0x16DEBD95, 8388608) && leads(0x6890E3BF, 16777216)
    requires leads(0xE5B55C5D, 50331648) && leads(0xAED1FF6C, 51318543) && leads(0x7748C7F3, 67108864)
    requires leads(0x3A8F4C1A, 268435456)
    ensures leads(0x9612D7AC, 16711935) && leads(0xE46CF851, 118427407) && leads(0x4220B81, 322122547)
    ensures leads(0xED2C71C, 357913941)
  {
    assert Times(32, 0xC0000401, 0x80000000, 0xE5B55C5D, 50331648, 0x232417F7, 3355443, 0x76D4981E);
    assert Times(32, 0xC0000401, 0x80000000, 0xE84C407E, 4194304, 0xC14ECA7E, 4129023, 0xB7DD7364);
    assert Times(32, 0xC0000401, 0x80000000, 0x6890E3BF, 16777216, 0x6E0FC870, 5592405, 0x87FEC26);
    assert Times(32, 0xC0000401, 0x80000000, 0x16DEBD95, 8388608, 0xB7DD7364, 8323327, 0x9612D7AC);
    assert Times(32, 0xC0000401, 0x80000000, 0x7748C7F3, 67108864, 0x87FEC26, 22369621, 0xCED9575D);
    assert Times(32, 0xC0000401, 0x80000000, 0x7748C7F3, 67108864, 0xAED1FF6C, 51318543, 0xE46CF851);
    assert Times(32, 0xC0000401, 0x80000000, 0x3A8F4C1A, 268435456, 0x76D4981E, 53687091, 0x4220B81);
    assert Times(32, 0xC0000401, 0x80000000, 0x3A8F4C1A, 268435456, 0xCED9575D, 89478485, 0xED2C71C);
  }

  lemma {:induction false} Chain32Part10(leads: Leading)
    requires Closed(32, 0xC0000401, 0x80000000, leads)
    requires leads(0xE46CF851, 118427407) && leads(0x3C644E45, 134217728) && leads(0x4220B81, 322122547)
    requires leads(0xED2C71C, 357913941) && leads(0x8D8C5FFE, 536870912) && leads(0x3BFDF30B, 1073741824)
    ensures leads(0xD3584CF1, 252645135) && leads(0xBE9205EF, 858993459) && leads(0x99FE2C82, 1431655765)
  {
    assert Times(32, 0xC0000401, 0x80000000, 0x3C644E45, 134217728, 0xE46CF851, 118427407, 0xD3584CF1);
    assert Times(32, 0xC0000401, 0x80000000, 0x8D8C5FFE, 536870912, 0x4220B81, 322122547, 0xBE9205EF);
    assert Times(32, 0xC0000401, 0x80000000, 0x3BFDF30B, 1073741824, 0xED2C71C, 357913941, 0x99FE2C82);
  }

  lemma {:induction false} Chain32(leads: Leading)
    requires Closed(32, 0xC0000401, 0x80000000, leads)
    requires leads(0x8000, 15) && leads(0x10000, 16) && leads(0x200000, 21) && leads(0x1000000, 24)
    requires leads(0x2000000, 25) && leads(0x4000000, 26)
    ensures leads(0x2, 4294967296) && leads(0x96A2713F, 65535) && leads(0x9612D7AC, 16711935)
    ensures leads(0xD3584CF1, 252645135) && leads(0xBE9205EF, 858993459) && leads(0x99FE2C82, 1431655765)
  {
    Chain32Part1(leads);
    Chain32Part2(leads);
    Chain32Part3(leads);
    Chain32Part4(leads);
    Chain32Part5(leads);
    Chain32Part6(leads);
    Chain32Part7(leads);
    Chain32Part8(leads);
    Chain32Part9(leads);
    Chain32Part10(leads);
  }

  lemma {:induction false} Ends32()
    ensures var leads := LeadsOf(32);
            && leads(0x96A2713F, 65535) && leads(0x9612D7AC, 16711935) && leads(0xD3584CF1, 252645135)
            && leads(0xBE9205EF, 858993459) && leads(0x99FE2C82, 1431655765) && leads(0x2, 4294967296)
  {
    LowFour(32, 32, 22, 2, 1, 0xC0000400);
    assert polynomials[32] == [32, 22, 2, 1];
    LeadsClosed(32, 0xC0000401, 0x80000000);
    LeadsPower(32, 0x8000, 15);
    LeadsPower(32, 0x10000, 16);
    LeadsPower(32, 0x200000, 21);
    LeadsPower(32, 0x1000000, 24);
    LeadsPower(32, 0x2000000, 25);
    LeadsPower(32, 0x4000000, 26);
    Chain32(LeadsOf(32));
  }

  lemma {:induction false} NotBack32From2()
    ensures NoneReturns(32, [252645135, 16711935, 65535])
  {
    Ends32();
    NotBackEither(32, 0x96A2713F, 65535, 1, []);
    assert [65535] + [] == [65535];
    NotBackEither(32, 0x9612D7AC, 16711935, 0, [65535]);
    assert [16711935] + [65535] == [16711935, 65535];
    NotBackEither(32, 0xD3584CF1, 252645135, 4, [16711935, 65535]);
    assert [252645135] + [16711935, 65535] == [252645135, 16711935, 65535];
  }

  lemma {:induction false} Back32()
    ensures Returns(32, 4294967295) && NoneReturns(32, [1431655765, 858993459, 252645135, 16711935, 65535])
  {
    Ends32();
    NotBack32From2();
    Closes(32, 4294967296);
    NotBackEither(32, 0xBE9205EF, 858993459, 1, [252645135, 16711935, 65535]);
    assert [858993459] + [252645135, 16711935, 65535] == [858993459, 252645135, 16711935, 65535];
    NotBackEither(32, 0x99FE2C82, 1431655765, 0, [858993459, 252645135, 16711935, 65535]);
    assert [1431655765] + [858993459, 252645135, 16711935, 65535]
      == [1431655765, 858993459, 252645135, 16711935, 65535];
  }

  lemma {:induction false} Factors32()
    ensures Factored(4294967295, [3, 5, 17, 257, 65537], [1431655765, 858993459, 252645135, 16711935, 65535])
  {
    ProductIs([65537], 65537, [], 1);
    ProductIs([257, 65537], 257, [65537], 65537);
    ProductIs([17, 257, 65537], 17, [257, 65537], 16843009);
    ProductIs([5, 17, 257, 65537], 5, [17, 257, 65537], 286331153);
    ProductIs([3, 5, 17, 257, 65537], 3, [5, 17, 257, 65537], 1431655765);
    Prime65537();
    PrimesTo20();
    PrimesTo400();
  }

  lemma {:induction false} Length32()
    ensures Maximal(32)
  {
    Powers();
    Factors32();
    Back32();
    MaximalExactly(32, [3, 5, 17, 257, 65537], [1431655765, 858993459, 252645135, 16711935, 65535]);
  }
}
