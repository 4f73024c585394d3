/**
 Certificates that the lengths 17 to 24 of the lfsr are maximal, in the form of `LfsrLengthsTo16`.
 */
module LfsrLengthsTo24 {
  import opened Orbits
  import opened PrimeFactors
  import opened RegisterWord
  import opened LfsrPeriods

  // ---------------------------------------------------------------------------
  // Length 17
  // ---------------------------------------------------------------------------

  lemma {:induction false} Chain17Part1(leads: Leading)
    requires Closed(17, 0x9, 0x10000, leads)
    requires leads(0x10000, 16)
    ensures leads(0x1AB78, 2048)
  {
    assert Times(17, 0x9, 0x10000, 0x10000, 16, 0x10000, 16, 0x8012);
    assert Times(17, 0x9, 0x10000, 0x8012, 32, 0x8012, 32, 0x12104);
    assert Times(17, 0x9, 0x10000, 0x12104, 64, 0x12104, 64, 0x19202);
    assert Times(17, 0x9, 0x10000, 0x19202, 128, 0x19202, 128, 0x1A484);
    assert Times(17, 0x9, 0x10000, 0x1A484, 256, 0x1A484, 256, 0x1F24A);
    assert Times(17, 0x9, 0x10000, 0x1F24A, 512, 0x1F24A, 512, 0x1EEC4);
    assert Times(17, 0x9, 0x10000, 0x1EEC4, 1024, 0x1EEC4, 1024, 0x1AB78);
  }

  lemma {:induction false} Chain17Part2(leads: Leading)
    requires Closed(17, 0x9, 0x10000, leads)
    requires leads(0x1AB78, 2048)
    ensures leads(0x2, 131072)
  {
    assert Times(17, 0x9, 0x10000, 0x1AB78, 2048, 0x1AB78, 2048, 0xA660);
    assert Times(17, 0x9, 0x10000, 0xA660, 4096, 0xA660, 4096, 0x1265A);
    assert Times(17, 0x9, 0x10000, 0x1265A, 8192, 0x1265A, 8192, 0x830C);
    assert Times(17, 0x9, 0x10000, 0x830C, 16384, 0x830C, 16384, 0x2042);
    assert Times(17, 0x9, 0x10000, 0x2042, 32768, 0x2042, 32768, 0x204);
    assert Times(17, 0x9, 0x10000, 0x204, 65536, 0x204, 65536, 0x2);
  }

  lemma {:induction false} Chain17(leads: Leading)
    requires Closed(17, 0x9, 0x10000, leads)
    requires leads(0x2, 1) && leads(0x10000, 16)
    ensures leads(0x2, 131072)
  {
    Chain17Part1(leads);
    Chain17Part2(leads);
  }

  lemma {:induction false} Ends17()
    ensures var leads := LeadsOf(17);
            leads(0x2, 1) && leads(0x2, 131072)
  {
    LowTwo(17, 17, 14, 0x8);
    assert polynomials[17] == [17, 14];
    LeadsClosed(17, 0x9, 0x10000);
    LeadsPower(17, 0x2, 1);
    LeadsPower(17, 0x10000, 16);
    Chain17(LeadsOf(17));
  }

  lemma {:induction false} Back17()
    ensures Returns(17, 131071) && NoneReturns(17, [1])
  {
    Ends17();
    Closes(17, 131072);
    NotBackEither(17, 0x2, 1, 0, []);
    assert [1] + [] == [1];
  }

  lemma {:induction false} Length17()
    ensures Maximal(17)
  {
    Powers();
    ProductIs([131071], 131071, [], 1);
    Prime131071();
    Back17();
    MaximalExactly(17, [131071], [1]);
  }

  // ---------------------------------------------------------------------------
  // Length 18
  // ---------------------------------------------------------------------------

  lemma {:induction false} Chain18Part1(leads: Leading)
    requires Closed(18, 0x81, 0x20000, leads)
    requires leads(0x10000, 16)
    ensures leads(0x4408, 32) && leads(0x20644, 64) && leads(0x102B5, 128) && leads(0x198, 256)
    ensures leads(0x14140, 512) && leads(0x35008, 1024) && leads(0x37028, 2048) && leads(0x3F528, 4096)
  {
    assert Times(18, 0x81, 0x20000, 0x10000, 16, 0x10000, 16, 0x4408);
    assert Times(18, 0x81, 0x20000, 0x4408, 32, 0x4408, 32, 0x20644);
    assert Times(18, 0x81, 0x20000, 0x20644, 64, 0x20644, 64, 0x102B5);
    assert Times(18, 0x81, 0x20000, 0x102B5, 128, 0x102B5, 128, 0x198);
    assert Times(18, 0x81, 0x20000, 0x198, 256, 0x198, 256, 0x14140);
    assert Times(18, 0x81, 0x20000, 0x14140, 512, 0x14140, 512, 0x35008);
    assert Times(18, 0x81, 0x20000, 0x35008, 1024, 0x35008, 1024, 0x37028);
    assert Times(18, 0x81, 0x20000, 0x37028, 2048, 0x37028, 2048, 0x3F528);
  }

  lemma {:induction false} Chain18Part2(leads: Leading)
    requires Closed(18, 0x81, 0x20000, leads)
    requires leads(0x20, 5) && leads(0x20644, 64) && leads(0x35008, 1024) && leads(0x3F528, 4096)
    ensures leads(0x20C1A, 1029) && leads(0x1DA38, 4160) && leads(0x2E62E, 8192) && leads(0x382F3, 16384)
    ensures leads(0x110AE, 32768) && leads(0x201C, 65536) && leads(0x2, 262144)
  {
    assert Times(18, 0x81, 0x20000, 0x3F528, 4096, 0x3F528, 4096, 0x2E62E);
    assert Times(18, 0x81, 0x20000, 0x2E62E, 8192, 0x2E62E, 8192, 0x382F3);
    assert Times(18, 0x81, 0x20000, 0x382F3, 16384, 0x382F3, 16384, 0x110AE);
    assert Times(18, 0x81, 0x20000, 0x110AE, 32768, 0x110AE, 32768, 0x201C);
    assert Times(18, 0x81, 0x20000, 0x201C, 65536, 0x201C, 65536, 0x8050);
    assert Times(18, 0x81, 0x20000, 0x8050, 131072, 0x8050, 131072, 0x2);
    assert Times(18, 0x81, 0x20000, 0x35008, 1024, 0x20, 5, 0x20C1A);
    assert Times(18, 0x81, 0x20000, 0x3F528, 4096, 0x20644, 64, 0x1DA38);
  }

  lemma {:induction false} Chain18Part3(leads: Leading)
    requires Closed(18, 0x81, 0x20000, leads)
    requires leads(0x4, 2) && leads(0x200, 9) && leads(0x10000, 16) && leads(0x4408, 32) && leads(0x102B5, 128)
    requires leads(0x198, 256) && leads(0x14140, 512) && leads(0x20C1A, 1029) && leads(0x1DA38, 4160)
    ensures leads(0x2D0A0, 521) && leads(0x21EC2, 1543) && leads(0x3E9A0, 5461) && leads(0x2D318, 5605)
  {
    assert Times(18, 0x81, 0x20000, 0x20C1A, 1029, 0x198, 256, 0x2D1BE);
    assert Times(18, 0x81, 0x20000, 0x1DA38, 4160, 0x2D1BE, 1285, 0xE69F);
    assert Times(18, 0x81, 0x20000, 0x14140, 512, 0x4, 2, 0x10581);
    assert Times(18, 0x81, 0x20000, 0x14140, 512, 0x200, 9, 0x2D0A0);
    assert Times(18, 0x81, 0x20000, 0xE69F, 5445, 0x10000, 16, 0x3E9A0);
    assert Times(18, 0x81, 0x20000, 0x102B5, 128, 0x4408, 32, 0x30401);
    assert Times(18, 0x81, 0x20000, 0xE69F, 5445, 0x30401, 160, 0x2D318);
    assert Times(18, 0x81, 0x20000, 0x20C1A, 1029, 0x10581, 514, 0x21EC2);
  }

  lemma {:induction false} Chain18Part4(leads: Leading)
    requires Closed(18, 0x81, 0x20000, leads)
    requires leads(0x2D0A0, 521) && leads(0x21EC2, 1543) && leads(0x37028, 2048) && leads(0x1DA38, 4160)
    requires leads(0x3E9A0, 5461) && leads(0x2D318, 5605) && leads(0x2E62E, 8192) && leads(0x382F3, 16384)
    requires leads(0x110AE, 32768) && leads(0x201C, 65536)
    ensures leads(0xB6C2, 3591) && leads(0x1ACDD, 13797) && leads(0x370B, 37449) && leads(0x1BF9B, 87381)
  {
    assert Times(18, 0x81, 0x20000, 0x1DA38, 4160, 0x2D0A0, 521, 0x149BC);
    assert Times(18, 0x81, 0x20000, 0x37028, 2048, 0x21EC2, 1543, 0xB6C2);
    assert Times(18, 0x81, 0x20000, 0x110AE, 32768, 0x149BC, 4681, 0x370B);
    assert Times(18, 0x81, 0x20000, 0x382F3, 16384, 0x3E9A0, 5461, 0x21CE4);
    assert Times(18, 0x81, 0x20000, 0x2E62E, 8192, 0x2D318, 5605, 0x1ACDD);
    assert Times(18, 0x81, 0x20000, 0x201C, 65536, 0x21CE4, 21845, 0x1BF9B);
  }

  lemma {:induction false} Chain18(leads: Leading)
    requires Closed(18, 0x81, 0x20000, leads)
    requires leads(0x4, 2) && leads(0x20, 5) && leads(0x200, 9) && leads(0x10000, 16)
    ensures leads(0x2, 262144) && leads(0xB6C2, 3591) && leads(0x1ACDD, 13797) && leads(0x370B, 37449)
    ensures leads(0x1BF9B, 87381)
  {
    Chain18Part1(leads);
    Chain18Part2(leads);
    Chain18Part3(leads);
    Chain18Part4(leads);
  }

  lemma {:induction false} Ends18()
    ensures var leads := LeadsOf(18);
            && leads(0xB6C2, 3591) && leads(0x1ACDD, 13797) && leads(0x370B, 37449) && leads(0x1BF9B, 87381)
            && leads(0x2, 262144)
  {
    LowTwo(18, 18, 11, 0x80);
    assert polynomials[18] == [18, 11];
    LeadsClosed(18, 0x81, 0x20000);
    LeadsPower(18, 0x4, 2);
    LeadsPower(18, 0x20, 5);
    LeadsPower(18, 0x200, 9);
    LeadsPower(18, 0x10000, 16);
    Chain18(LeadsOf(18));
  }

  lemma {:induction false} NotBack18From3()
    ensures NoneReturns(18, [37449, 13797, 3591])
  {
    Ends18();
    NotBackEither(18, 0xB6C2, 3591, 0, []);
    assert [3591] + [] == [3591];
    NotBackEither(18, 0x1ACDD, 13797, 2, [3591]);
    assert [13797] + [3591] == [13797, 3591];
    NotBackEither(18, 0x370B, 37449, 1, [13797, 3591]);
    assert [37449] + [13797, 3591] == [37449, 13797, 3591];
  }

  lemma {:induction false} Back18()
    ensures Returns(18, 262143) && NoneReturns(18, [87381, 87381, 87381, 37449, 13797, 3591])
  {
    Ends18();
    NotBack18From3();
    Closes(18, 262144);
    NotBackEither(18, 0x1BF9B, 87381, 1, [37449, 13797, 3591]);
    assert [87381] + [37449, 13797, 3591] == [87381, 37449, 13797, 3591];
    NotBackEither(18, 0x1BF9B, 87381, 1, [87381, 37449, 13797, 3591]);
    assert [87381] + [87381, 37449, 13797, 3591] == [87381, 87381, 37449, 13797, 3591];
    NotBackEither(18, 0x1BF9B, 87381, 1, [87381, 87381, 37449, 13797, 3591]);
    assert [87381] + [87381, 87381, 37449, 13797, 3591] == [87381, 87381, 87381, 37449, 13797, 3591];
  }

  lemma {:induction false} ProductTail18()
    ensures Product([7, 19, 73]) == 9709
  {
    ProductIs([73], 73, [], 1);
    ProductIs([19, 73], 19, [73], 73);
    ProductIs([7, 19, 73], 7, [19, 73], 1387);
  }

  lemma {:induction false} Factors18()
    ensures Factored(262143, [3, 3, 3, 7, 19, 73], [87381, 87381, 87381, 37449, 13797, 3591])
  {
    ProductTail18();
    ProductIs([3, 7, 19, 73], 3, [7, 19, 73], 9709);
    ProductIs([3, 3, 7, 19, 73], 3, [3, 7, 19, 73], 29127);
    ProductIs([3, 3, 3, 7, 19, 73], 3, [3, 3, 7, 19, 73], 87381);
    PrimesTo100();
    PrimesTo20();
  }

  lemma {:induction false} Length18()
    ensures Maximal(18)
  {
    Powers();
    Factors18();
    Back18();
    MaximalExactly(18, [3, 3, 3, 7, 19, 73], [87381, 87381, 87381, 37449, 13797, 3591]);
  }

  // ---------------------------------------------------------------------------
  // Length 19
  // ---------------------------------------------------------------------------

  lemma {:induction false} Chain19Part1(leads: Leading)
    requires Closed(19, 0x27, 0x40000, leads)
    requires leads(0x10000, 16)
    ensures leads(0x3D2BF, 4096)
  {
    assert Times(19, 0x27, 0x40000, 0x10000, 16, 0x10000, 16, 0x4E000);
    assert Times(19, 0x27, 0x40000, 0x4E000, 32, 0x4E000, 32, 0x7649F);
    assert Times(19, 0x27, 0x40000, 0x7649F, 64, 0x7649F, 64, 0x17DCA);
    assert Times(19, 0x27, 0x40000, 0x17DCA, 128, 0x17DCA, 128, 0x5E852);
    assert Times(19, 0x27, 0x40000, 0x5E852, 256, 0x5E852, 256, 0x394A3);
    assert Times(19, 0x27, 0x40000, 0x394A3, 512, 0x394A3, 512, 0x618E5);
    assert Times(19, 0x27, 0x40000, 0x618E5, 1024, 0x618E5, 1024, 0x5D098);
    assert Times(19, 0x27, 0x40000, 0x5D098, 2048, 0x5D098, 2048, 0x3D2BF);
  }

  lemma {:induction false} Chain19Part2(leads: Leading)
    requires Closed(19, 0x27, 0x40000, leads)
    requires leads(0x3D2BF, 4096)
    ensures leads(0x2, 524288)
  {
    assert Times(19, 0x27, 0x40000, 0x3D2BF, 4096, 0x3D2BF, 4096, 0x257FB);
    assert Times(19, 0x27, 0x40000, 0x257FB, 8192, 0x257FB, 8192, 0x69FA5);
    assert Times(19, 0x27, 0x40000, 0x69FA5, 16384, 0x69FA5, 16384, 0x1F8D6);
    assert Times(19, 0x27, 0x40000, 0x1F8D6, 32768, 0x1F8D6, 32768, 0x5D14C);
    assert Times(19, 0x27, 0x40000, 0x5D14C, 65536, 0x5D14C, 65536, 0x283AF);
    assert Times(19, 0x27, 0x40000, 0x283AF, 131072, 0x283AF, 131072, 0x7FC1B);
    assert Times(19, 0x27, 0x40000, 0x7FC1B, 262144, 0x7FC1B, 262144, 0x2);
  }

  lemma {:induction false} Chain19(leads: Leading)
    requires Closed(19, 0x27, 0x40000, leads)
    requires leads(0x2, 1) && leads(0x10000, 16)
    ensures leads(0x2, 524288)
  {
    Chain19Part1(leads);
    Chain19Part2(leads);
  }

  lemma {:induction false} Ends19()
    ensures var leads := LeadsOf(19);
            leads(0x2, 1) && leads(0x2, 524288)
  {
    LowFour(19, 19, 18, 17, 14, 0x26);
    assert polynomials[19] == [19, 18, 17, 14];
    LeadsClosed(19, 0x27, 0x40000);
    LeadsPower(19, 0x2, 1);
    LeadsPower(19, 0x10000, 16);
    Chain19(LeadsOf(19));
  }

  lemma {:induction false} Back19()
    ensures Returns(19, 524287) && NoneReturns(19, [1])
  {
    Ends19();
    Closes(19, 524288);
    NotBackEither(19, 0x2, 1, 0, []);
    assert [1] + [] == [1];
  }

  lemma {:induction false} Length19()
    ensures Maximal(19)
  {
    Powers();
    ProductIs([524287], 524287, [], 1);
    Prime524287();
    Back19();
    MaximalExactly(19, [524287], [1]);
  }

  // ---------------------------------------------------------------------------
  // Length 20
  // ---------------------------------------------------------------------------

  lemma {:induction false} Chain20Part1(leads: Leading)
    requires Closed(20, 0x9, 0x80000, leads)
    requires leads(0x10000, 16)
    ensures leads(0x9000, 32) && leads(0x2490, 64) && leads(0x4349, 128) && leads(0x51941, 256)
    ensures leads(0x880B5, 512) && leads(0x46103, 1024) && leads(0x11027, 4096)
  {
    assert Times(20, 0x9, 0x80000, 0x10000, 16, 0x10000, 16, 0x9000);
    assert Times(20, 0x9, 0x80000, 0x9000, 32, 0x9000, 32, 0x2490);
    assert Times(20, 0x9, 0x80000, 0x2490, 64, 0x2490, 64, 0x4349);
    assert Times(20, 0x9, 0x80000, 0x4349, 128, 0x4349, 128, 0x51941);
    assert Times(20, 0x9, 0x80000, 0x51941, 256, 0x51941, 256, 0x880B5);
    assert Times(20, 0x9, 0x80000, 0x880B5, 512, 0x880B5, 512, 0x46103);
    assert Times(20, 0x9, 0x80000, 0x46103, 1024, 0x46103, 1024, 0x80B45);
    assert Times(20, 0x9, 0x80000, 0x80B45, 2048, 0x80B45, 2048, 0x11027);
  }

  lemma {:induction false} Chain20Part2(leads: Leading)
    requires Closed(20, 0x9, 0x80000, leads)
    requires leads(0x11027, 4096)
    ensures leads(0x9485, 8192) && leads(0x6488, 16384) && leads(0x4B09, 32768) && leads(0x50965, 65536)
    ensures leads(0x88435, 131072) && leads(0x4210A, 262144) && leads(0x2, 1048576)
  {
    assert Times(20, 0x9, 0x80000, 0x11027, 4096, 0x11027, 4096, 0x9485);
    assert Times(20, 0x9, 0x80000, 0x9485, 8192, 0x9485, 8192, 0x6488);
    assert Times(20, 0x9, 0x80000, 0x6488, 16384, 0x6488, 16384, 0x4B09);
    assert Times(20, 0x9, 0x80000, 0x4B09, 32768, 0x4B09, 32768, 0x50965);
    assert Times(20, 0x9, 0x80000, 0x50965, 65536, 0x50965, 65536, 0x88435);
    assert Times(20, 0x9, 0x80000, 0x88435, 131072, 0x88435, 131072, 0x4210A);
    assert Times(20, 0x9, 0x80000, 0x4210A, 262144, 0x4210A, 262144, 0x80204);
    assert Times(20, 0x9, 0x80000, 0x80204, 524288, 0x80204, 524288, 0x2);
  }

  lemma {:induction false} Chain20Part3(leads: Leading)
    requires Closed(20, 0x9, 0x80000, leads)
    requires leads(0x4, 2) && leads(0x20, 5) && leads(0x10000, 16) && leads(0x20000, 17) && leads(0x2490, 64)
    requires leads(0x51941, 256) && leads(0x880B5, 512) && leads(0x11027, 4096) && leads(0x9485, 8192)
    requires leads(0x6488, 16384) && leads(0x50965, 65536)
    ensures leads(0x12000, 33) && leads(0x33233, 8962) && leads(0x5591E, 16453) && leads(0xA666A, 69648)
  {
    assert Times(20, 0x9, 0x80000, 0x2490, 64, 0x20, 5, 0x49200);
    assert Times(20, 0x9, 0x80000, 0x11027, 4096, 0x10000, 16, 0x79912);
    assert Times(20, 0x9, 0x80000, 0x6488, 16384, 0x49200, 69, 0x5591E);
    assert Times(20, 0x9, 0x80000, 0x50965, 65536, 0x79912, 4112, 0xA666A);
    assert Times(20, 0x9, 0x80000, 0x10000, 16, 0x20000, 17, 0x12000);
    assert Times(20, 0x9, 0x80000, 0x51941, 256, 0x4, 2, 0x4650D);
    assert Times(20, 0x9, 0x80000, 0x880B5, 512, 0x4650D, 258, 0x19B40);
    assert Times(20, 0x9, 0x80000, 0x9485, 8192, 0x19B40, 770, 0x33233);
  }

  lemma {:induction false} Chain20Part4(leads: Leading)
    requires Closed(20, 0x9, 0x80000, leads)
    requires leads(0x100, 8) && leads(0x9000, 32) && leads(0x12000, 33) && leads(0x4349, 128) && leads(0x51941, 256)
    requires leads(0x46103, 1024) && leads(0x9485, 8192) && leads(0x33233, 8962) && leads(0x5591E, 16453)
    requires leads(0xA666A, 69648)
    ensures leads(0x15842, 1057) && leads(0x48541, 8200) && leads(0x4FF7F, 8995) && leads(0x90849, 9122)
    ensures leads(0x87266, 87125) && leads(0xBF02D, 87381)
  {
    assert Times(20, 0x9, 0x80000, 0x5591E, 16453, 0x46103, 1024, 0x1B2C6);
    assert Times(20, 0x9, 0x80000, 0xA666A, 69648, 0x1B2C6, 17477, 0x87266);
    assert Times(20, 0x9, 0x80000, 0x9485, 8192, 0x100, 8, 0x48541);
    assert Times(20, 0x9, 0x80000, 0x4349, 128, 0x9000, 32, 0x91);
    assert Times(20, 0x9, 0x80000, 0x46103, 1024, 0x12000, 33, 0x15842);
    assert Times(20, 0x9, 0x80000, 0x33233, 8962, 0x12000, 33, 0x4FF7F);
    assert Times(20, 0x9, 0x80000, 0x33233, 8962, 0x91, 160, 0x90849);
    assert Times(20, 0x9, 0x80000, 0x87266, 87125, 0x51941, 256, 0xBF02D);
  }

  lemma {:induction false} Chain20Part5(leads: Leading)
    requires Closed(20, 0x9, 0x80000, leads)
    requires leads(0x15842, 1057) && leads(0x48541, 8200) && leads(0x4FF7F, 8995) && leads(0x90849, 9122)
    requires leads(0x5591E, 16453) && leads(0x4B09, 32768) && leads(0xA666A, 69648) && leads(0x87266, 87125)
    requires leads(0xBF02D, 87381) && leads(0x88435, 131072) && leads(0x4210A, 262144)
    ensures leads(0xA00EA, 25575) && leads(0x1E639, 33825) && leads(0x4A5DF, 95325) && leads(0xFF200, 209715)
    ensures leads(0xC5DEB, 349525)
  {
    assert Times(20, 0x9, 0x80000, 0x4B09, 32768, 0x15842, 1057, 0x1E639);
    assert Times(20, 0x9, 0x80000, 0x87266, 87125, 0x48541, 8200, 0x4A5DF);
    assert Times(20, 0x9, 0x80000, 0xA666A, 69648, 0x4FF7F, 8995, 0xE339C);
    assert Times(20, 0x9, 0x80000, 0x5591E, 16453, 0x90849, 9122, 0xA00EA);
    assert Times(20, 0x9, 0x80000, 0x88435, 131072, 0xE339C, 78643, 0xFF200);
    assert Times(20, 0x9, 0x80000, 0x4210A, 262144, 0xBF02D, 87381, 0xC5DEB);
  }

  lemma {:induction false} Chain20(leads: Leading)
    requires Closed(20, 0x9, 0x80000, leads)
    requires leads(0x4, 2) && leads(0x20, 5) && leads(0x100, 8) && leads(0x10000, 16) && leads(0x20000, 17)
    ensures leads(0x2, 1048576) && leads(0xA00EA, 25575) && leads(0x1E639, 33825) && leads(0x4A5DF, 95325)
    ensures leads(0xFF200, 209715) && leads(0xC5DEB, 349525)
  {
    Chain20Part1(leads);
    Chain20Part2(leads);
    Chain20Part3(leads);
    Chain20Part4(leads);
    Chain20Part5(leads);
  }

  lemma {:induction false} Ends20()
    ensures var leads := LeadsOf(20);
            && leads(0xA00EA, 25575) && leads(0x1E639, 33825) && leads(0x4A5DF, 95325) && leads(0xFF200, 209715)
            && leads(0xC5DEB, 349525) && leads(0x2, 1048576)
  {
    LowTwo(20, 20, 17, 0x8);
    assert polynomials[20] == [20, 17];
    LeadsClosed(20, 0x9, 0x80000);
    LeadsPower(20, 0x4, 2);
    LeadsPower(20, 0x20, 5);
    LeadsPower(20, 0x100, 8);
    LeadsPower(20, 0x10000, 16);
    LeadsPower(20, 0x20000, 17);
    Chain20(LeadsOf(20));
  }

  lemma {:induction false} NotBack20From3()
    ensures NoneReturns(20, [95325, 33825, 25575])
  {
    Ends20();
    NotBackEither(20, 0xA00EA, 25575, 0, []);
    assert [25575] + [] == [25575];
    NotBackEither(20, 0x1E639, 33825, 3, [25575]);
    assert [33825] + [25575] == [33825, 25575];
    NotBackEither(20, 0x4A5DF, 95325, 1, [33825, 25575]);
    assert [95325] + [33825, 25575] == [95325, 33825, 25575];
  }

  lemma {:induction false} Back20()
    ensures Returns(20, 1048575) && NoneReturns(20, [349525, 209715, 209715, 95325, 33825, 25575])
  {
    Ends20();
    NotBack20From3();
    Closes(20, 1048576);
    NotBackEither(20, 0xFF200, 209715, 0, [95325, 33825, 25575]);
    assert [209715] + [95325, 33825, 25575] == [209715, 95325, 33825, 25575];
    NotBackEither(20, 0xFF200, 209715, 0, [209715, 95325, 33825, 25575]);
    assert [209715] + [209715, 95325, 33825, 25575] == [209715, 209715, 95325, 33825, 25575];
    NotBackEither(20, 0xC5DEB, 349525, 1, [209715, 209715, 95325, 33825, 25575]);
    assert [349525] + [209715, 209715, 95325, 33825, 25575] == [349525, 209715, 209715, 95325, 33825, 25575];
  }

  lemma {:induction false} ProductTail20()
    ensures Product([11, 31, 41]) == 13981
  {
    ProductIs([41], 41, [], 1);
    ProductIs([31, 41], 31, [41], 41);
    ProductIs([11, 31, 41], 11, [31, 41], 1271);
  }

  lemma {:induction false} Factors20()
    ensures Factored(1048575, [3, 5, 5, 11, 31, 41], [349525, 209715, 209715, 95325, 33825, 25575])
  {
    ProductTail20();
    ProductIs([5, 11, 31, 41], 5, [11, 31, 41], 13981);
    ProductIs([5, 5, 11, 31, 41], 5, [5, 11, 31, 41], 69905);
    ProductIs([3, 5, 5, 11, 31, 41], 3, [5, 5, 11, 31, 41], 349525);
    PrimesTo100();
    PrimesTo20();
  }

  lemma {:induction false} Length20()
    ensures Maximal(20)
  {
    Powers();
    Factors20();
    Back20();
    MaximalExactly(20, [3, 5, 5, 11, 31, 41], [349525, 209715, 209715, 95325, 33825, 25575]);
  }

  // ---------------------------------------------------------------------------
  // Length 21
  // ---------------------------------------------------------------------------

  lemma {:induction false} Chain21Part1(leads: Leading)
    requires Closed(21, 0x5, 0x100000, leads)
    requires leads(0x10000, 16)
    ensures leads(0xAA, 64) && leads(0x4444, 128) && leads(0xC412D, 512) && leads(0x1E7301, 2048)
  {
    assert Times(21, 0x5, 0x100000, 0x10000, 16, 0x10000, 16, 0x2800);
    assert Times(21, 0x5, 0x100000, 0x2800, 32, 0x2800, 32, 0xAA);
    assert Times(21, 0x5, 0x100000, 0xAA, 64, 0xAA, 64, 0x4444);
    assert Times(21, 0x5, 0x100000, 0x4444, 128, 0x4444, 128, 0x101290);
    assert Times(21, 0x5, 0x100000, 0x101290, 256, 0x101290, 256, 0xC412D);
    assert Times(21, 0x5, 0x100000, 0xC412D, 512, 0xC412D, 512, 0x986D1);
    assert Times(21, 0x5, 0x100000, 0x986D1, 1024, 0x986D1, 1024, 0x1E7301);
  }

  lemma {:induction false} Chain21Part2(leads: Leading)
    requires Closed(21, 0x5, 0x100000, leads)
    requires leads(0x1E7301, 2048)
    ensures leads(0x5220C, 4096) && leads(0x27FAA, 16384) && leads(0x15E646, 32768) && leads(0x1540FA, 262144)
  {
    assert Times(21, 0x5, 0x100000, 0x1E7301, 2048, 0x1E7301, 2048, 0x5220C);
    assert Times(21, 0x5, 0x100000, 0x5220C, 4096, 0x5220C, 4096, 0x6A8F0);
    assert Times(21, 0x5, 0x100000, 0x6A8F0, 8192, 0x6A8F0, 8192, 0x27FAA);
    assert Times(21, 0x5, 0x100000, 0x27FAA, 16384, 0x27FAA, 16384, 0x15E646);
    assert Times(21, 0x5, 0x100000, 0x15E646, 32768, 0x15E646, 32768, 0x1EB031);
    assert Times(21, 0x5, 0x100000, 0x1EB031, 65536, 0x1EB031, 65536, 0x2F8C);
    assert Times(21, 0x5, 0x100000, 0x2F8C, 131072, 0x2F8C, 131072, 0x1540FA);
  }

  lemma {:induction false} Chain21Part3(leads: Leading)
    requires Closed(21, 0x5, 0x100000, leads)
    requires leads(0x2, 1) && leads(0x40, 6) && leads(0x200, 9) && leads(0xAA, 64) && leads(0x4444, 128)
    requires leads(0x1E7301, 2048) && leads(0x5220C, 4096) && leads(0x1540FA, 262144)
    ensures leads(0x8888, 129) && leads(0x1CC08C, 2054) && leads(0x754E5, 4169) && leads(0x2, 2097152)
  {
    assert Times(21, 0x5, 0x100000, 0x1540FA, 262144, 0x1540FA, 262144, 0xAFFC1);
    assert Times(21, 0x5, 0x100000, 0xAFFC1, 524288, 0xAFFC1, 524288, 0x1FF803);
    assert Times(21, 0x5, 0x100000, 0x1FF803, 1048576, 0x1FF803, 1048576, 0x2);
    assert Times(21, 0x5, 0x100000, 0xAA, 64, 0x200, 9, 0x15400);
    assert Times(21, 0x5, 0x100000, 0x5220C, 4096, 0x15400, 73, 0x754E5);
    assert Times(21, 0x5, 0x100000, 0x4444, 128, 0x2, 1, 0x8888);
    assert Times(21, 0x5, 0x100000, 0x1E7301, 2048, 0x40, 6, 0x1CC08C);
  }

  lemma {:induction false} Chain21Part4(leads: Leading)
    requires Closed(21, 0x5, 0x100000, leads)
    requires leads(0x8888, 129) && leads(0xC412D, 512) && leads(0x1CC08C, 2054) && leads(0x754E5, 4169)
    requires leads(0x27FAA, 16384) && leads(0x15E646, 32768) && leads(0x1540FA, 262144)
    ensures leads(0x2D8C9, 6223) && leads(0x45498, 16513) && leads(0x13E1A5, 299593)
  {
    assert Times(21, 0x5, 0x100000, 0x27FAA, 16384, 0x8888, 129, 0x45498);
    assert Times(21, 0x5, 0x100000, 0x754E5, 4169, 0xC412D, 512, 0x1E6C09);
    assert Times(21, 0x5, 0x100000, 0x754E5, 4169, 0x1CC08C, 2054, 0x2D8C9);
    assert Times(21, 0x5, 0x100000, 0x15E646, 32768, 0x1E6C09, 4681, 0x11AA57);
    assert Times(21, 0x5, 0x100000, 0x1540FA, 262144, 0x11AA57, 37449, 0x13E1A5);
  }

  lemma {:induction false} Chain21(leads: Leading)
    requires Closed(21, 0x5, 0x100000, leads)
    requires leads(0x2, 1) && leads(0x40, 6) && leads(0x200, 9) && leads(0x10000, 16)
    ensures leads(0x2, 2097152) && leads(0x2D8C9, 6223) && leads(0x45498, 16513) && leads(0x13E1A5, 299593)
  {
    Chain21Part1(leads);
    Chain21Part2(leads);
    Chain21Part3(leads);
    Chain21Part4(leads);
  }

  lemma {:induction false} Ends21()
    ensures var leads := LeadsOf(21);
            leads(0x2D8C9, 6223) && leads(0x45498, 16513) && leads(0x13E1A5, 299593) && leads(0x2, 2097152)
  {
    LowTwo(21, 21, 19, 0x4);
    assert polynomials[21] == [21, 19];
    LeadsClosed(21, 0x5, 0x100000);
    LeadsPower(21, 0x2, 1);
    LeadsPower(21, 0x40, 6);
    LeadsPower(21, 0x200, 9);
    LeadsPower(21, 0x10000, 16);
    Chain21(LeadsOf(21));
  }

  lemma {:induction false} Back21()
    ensures Returns(21, 2097151) && NoneReturns(21, [299593, 299593, 16513, 6223])
  {
    Ends21();
    Closes(21, 2097152);
    NotBackEither(21, 0x2D8C9, 6223, 3, []);
    assert [6223] + [] == [6223];
    NotBackEither(21, 0x45498, 16513, 0, [6223]);
    assert [16513] + [6223] == [16513, 6223];
    NotBackEither(21, 0x13E1A5, 299593, 2, [16513, 6223]);
    assert [299593] + [16513, 6223] == [299593, 16513, 6223];
    NotBackEither(21, 0x13E1A5, 299593, 2, [299593, 16513, 6223]);
    assert [299593] + [299593, 16513, 6223] == [299593, 299593, 16513, 6223];
  }

  lemma {:induction false} Factors21()
    ensures Factored(2097151, [7, 7, 127, 337], [299593, 299593, 16513, 6223])
  {
    ProductIs([337], 337, [], 1);
    ProductIs([127, 337], 127, [337], 337);
    ProductIs([7, 127, 337], 7, [127, 337], 42799);
    ProductIs([7, 7, 127, 337], 7, [7, 127, 337], 299593);
    PrimesTo20();
    PrimesTo400();
  }

  lemma {:induction false} Length21()
    ensures Maximal(21)
  {
    Powers();
    Factors21();
    Back21();
    MaximalExactly(21, [7, 7, 127, 337], [299593, 299593, 16513, 6223]);
  }

  // ---------------------------------------------------------------------------
  // Length 22
  // ---------------------------------------------------------------------------

  lemma {:induction false} Chain22Part1(leads: Leading)
    requires Closed(22, 0x3, 0x200000, leads)
    requires leads(0x10000, 16)
    ensures leads(0xC00, 32) && leads(0x100003, 64) && leads(0xC0005, 128) && leads(0x3C011, 256)
    ensures leads(0x3EC1, 512) && leads(0x14503E, 1024) && leads(0xCC598, 2048) && leads(0x128280, 4096)
  {
    assert Times(22, 0x3, 0x200000, 0x10000, 16, 0x10000, 16, 0xC00);
    assert Times(22, 0x3, 0x200000, 0xC00, 32, 0xC00, 32, 0x100003);
    assert Times(22, 0x3, 0x200000, 0x100003, 64, 0x100003, 64, 0xC0005);
    assert Times(22, 0x3, 0x200000, 0xC0005, 128, 0xC0005, 128, 0x3C011);
    assert Times(22, 0x3, 0x200000, 0x3C011, 256, 0x3C011, 256, 0x3EC1);
    assert Times(22, 0x3, 0x200000, 0x3EC1, 512, 0x3EC1, 512, 0x14503E);
    assert Times(22, 0x3, 0x200000, 0x14503E, 1024, 0x14503E, 1024, 0xCC598);
    assert Times(22, 0x3, 0x200000, 0xCC598, 2048, 0xCC598, 2048, 0x128280);
  }

  lemma {:induction false} Chain22Part2(leads: Leading)
    requires Closed(22, 0x3, 0x200000, leads)
    requires leads(0x128280, 4096)
    ensures leads(0x87300, 8192) && leads(0x600FC, 16384) && leads(0xA550, 32768) && leads(0x111230, 65536)
    ensures leads(0x8090C, 131072) && leads(0x20053, 262144) && leads(0x10021, 1048576)
  {
    assert Times(22, 0x3, 0x200000, 0x128280, 4096, 0x128280, 4096, 0x87300);
    assert Times(22, 0x3, 0x200000, 0x87300, 8192, 0x87300, 8192, 0x600FC);
    assert Times(22, 0x3, 0x200000, 0x600FC, 16384, 0x600FC, 16384, 0xA550);
    assert Times(22, 0x3, 0x200000, 0xA550, 32768, 0xA550, 32768, 0x111230);
    assert Times(22, 0x3, 0x200000, 0x111230, 65536, 0x111230, 65536, 0x8090C);
    assert Times(22, 0x3, 0x200000, 0x8090C, 131072, 0x8090C, 131072, 0x20053);
    assert Times(22, 0x3, 0x200000, 0x20053, 262144, 0x20053, 262144, 0x2105);
    assert Times(22, 0x3, 0x200000, 0x2105, 524288, 0x2105, 524288, 0x10021);
  }

  lemma {:induction false} Chain22Part3(leads: Leading)
    requires Closed(22, 0x3, 0x200000, leads)
    requires leads(0x4, 2) && leads(0x100, 8) && leads(0x200000, 21) && leads(0x100003, 64) && leads(0x3C011, 256)
    requires leads(0x14503E, 1024) && leads(0xCC598, 2048) && leads(0x128280, 4096) && leads(0xA550, 32768)
    requires leads(0x10021, 1048576)
    ensures leads(0x3C0, 72) && leads(0x2F0F03, 4119) && leads(0x30DC10, 5397) && leads(0x11E6AB, 34816)
    ensures leads(0x2, 4194304)
  {
    assert Times(22, 0x3, 0x200000, 0x10021, 1048576, 0x10021, 1048576, 0x801);
    assert Times(22, 0x3, 0x200000, 0x801, 2097152, 0x801, 2097152, 0x2);
    assert Times(22, 0x3, 0x200000, 0x128280, 4096, 0x200000, 21, 0x1BC3C0);
    assert Times(22, 0x3, 0x200000, 0x100003, 64, 0x100, 8, 0x3C0);
    assert Times(22, 0x3, 0x200000, 0x14503E, 1024, 0x3C011, 256, 0x28282);
    assert Times(22, 0x3, 0x200000, 0x1BC3C0, 4117, 0x28282, 1280, 0x30DC10);
    assert Times(22, 0x3, 0x200000, 0xA550, 32768, 0xCC598, 2048, 0x11E6AB);
    assert Times(22, 0x3, 0x200000, 0x1BC3C0, 4117, 0x4, 2, 0x2F0F03);
  }

  lemma {:induction false} Chain22Part4(leads: Leading)
    requires Closed(22, 0x3, 0x200000, leads)
    requires leads(0x20000, 17) && leads(0xC00, 32) && leads(0x100003, 64) && leads(0x3C0, 72)
    requires leads(0xC0005, 128) && leads(0x3EC1, 512) && leads(0x2F0F03, 4119) && leads(0x30DC10, 5397)
    requires leads(0x87300, 8192) && leads(0x600FC, 16384)
    ensures leads(0x53D3F, 5461) && leads(0x3205F9, 6141) && leads(0x17E0B1, 12311) && leads(0xC1E7D, 16473)
  {
    assert Times(22, 0x3, 0x200000, 0x3C0, 72, 0x20000, 17, 0x22);
    assert Times(22, 0x3, 0x200000, 0x3C0, 72, 0xC00, 32, 0x110000);
    assert Times(22, 0x3, 0x200000, 0x30DC10, 5397, 0x100003, 64, 0x53D3F);
    assert Times(22, 0x3, 0x200000, 0x600FC, 16384, 0x22, 89, 0xC1E7D);
    assert Times(22, 0x3, 0x200000, 0xC0005, 128, 0x110000, 104, 0x105003);
    assert Times(22, 0x3, 0x200000, 0x3EC1, 512, 0x105003, 232, 0xC03C0);
    assert Times(22, 0x3, 0x200000, 0x30DC10, 5397, 0xC03C0, 744, 0x3205F9);
    assert Times(22, 0x3, 0x200000, 0x87300, 8192, 0x2F0F03, 4119, 0x17E0B1);
  }

  lemma {:induction false} Chain22Part5(leads: Leading)
    requires Closed(22, 0x3, 0x200000, leads)
    requires leads(0x53D3F, 5461) && leads(0x17E0B1, 12311) && leads(0x600FC, 16384) && leads(0xC1E7D, 16473)
    requires leads(0x11E6AB, 34816) && leads(0x111230, 65536) && leads(0x8090C, 131072) && leads(0x20053, 262144)
    requires leads(0x10021, 1048576)
    ensures leads(0x59253, 47127) && leads(0x137D1A, 182361) && leads(0x210D17, 1398101)
  {
    assert Times(22, 0x3, 0x200000, 0x600FC, 16384, 0x53D3F, 5461, 0x1A370E);
    assert Times(22, 0x3, 0x200000, 0x11E6AB, 34816, 0x17E0B1, 12311, 0x59253);
    assert Times(22, 0x3, 0x200000, 0x11E6AB, 34816, 0xC1E7D, 16473, 0x3B21D0);
    assert Times(22, 0x3, 0x200000, 0x111230, 65536, 0x1A370E, 21845, 0x1E48F8);
    assert Times(22, 0x3, 0x200000, 0x8090C, 131072, 0x3B21D0, 51289, 0x137D1A);
    assert Times(22, 0x3, 0x200000, 0x20053, 262144, 0x1E48F8, 87381, 0x257E6A);
    assert Times(22, 0x3, 0x200000, 0x10021, 1048576, 0x257E6A, 349525, 0x210D17);
  }

  lemma {:induction false} Chain22(leads: Leading)
    requires Closed(22, 0x3, 0x200000, leads)
    requires leads(0x4, 2) && leads(0x100, 8) && leads(0x10000, 16) && leads(0x20000, 17) && leads(0x200000, 21)
    ensures leads(0x2, 4194304) && leads(0x3205F9, 6141) && leads(0x59253, 47127) && leads(0x137D1A, 182361)
    ensures leads(0x210D17, 1398101)
  {
    Chain22Part1(leads);
    Chain22Part2(leads);
    Chain22Part3(leads);
    Chain22Part4(leads);
    Chain22Part5(leads);
  }

  lemma {:induction false} Ends22()
    ensures var leads := LeadsOf(22);
            && leads(0x3205F9, 6141) && leads(0x59253, 47127) && leads(0x137D1A, 182361)
            && leads(0x210D17, 1398101) && leads(0x2, 4194304)
  {
    LowTwo(22, 22, 21, 0x2);
    assert polynomials[22] == [22, 21];
    LeadsClosed(22, 0x3, 0x200000);
    LeadsPower(22, 0x4, 2);
    LeadsPower(22, 0x100, 8);
    LeadsPower(22, 0x10000, 16);
    LeadsPower(22, 0x20000, 17);
    LeadsPower(22, 0x200000, 21);
    Chain22(LeadsOf(22));
  }

  lemma {:induction false} Back22()
    ensures Returns(22, 4194303) && NoneReturns(22, [1398101, 182361, 47127, 6141])
  {
    Ends22();
    Closes(22, 4194304);
    NotBackEither(22, 0x3205F9, 6141, 3, []);
    assert [6141] + [] == [6141];
    NotBackEither(22, 0x59253, 47127, 1, [6141]);
    assert [47127] + [6141] == [47127, 6141];
    NotBackEither(22, 0x137D1A, 182361, 0, [47127, 6141]);
    assert [182361] + [47127, 6141] == [182361, 47127, 6141];
    NotBackEither(22, 0x210D17, 1398101, 1, [182361, 47127, 6141]);
    assert [1398101] + [182361, 47127, 6141] == [1398101, 182361, 47127, 6141];
  }

  lemma {:induction false} Factors22()
    ensures Factored(4194303, [3, 23, 89, 683], [1398101, 182361, 47127, 6141])
  {
    ProductIs([683], 683, [], 1);
    ProductIs([89, 683], 89, [683], 683);
    ProductIs([23, 89, 683], 23, [89, 683], 60787);
    ProductIs([3, 23, 89, 683], 3, [23, 89, 683], 1398101);
    PrimesTo100();
    PrimesTo20();
    PrimesTo2000();
  }

  lemma {:induction false} Length22()
    ensures Maximal(22)
  {
    Powers();
    Factors22();
    Back22();
    MaximalExactly(22, [3, 23, 89, 683], [1398101, 182361, 47127, 6141]);
  }

  // ---------------------------------------------------------------------------
  // Length 23
  // ---------------------------------------------------------------------------

  lemma {:induction false} Chain23Part1(leads: Leading)
    requires Closed(23, 0x21, 0x400000, leads)
    requires leads(0x10000, 16)
    ensures leads(0x562108, 256) && leads(0x7CF204, 2048)
  {
    assert Times(23, 0x21, 0x400000, 0x10000, 16, 0x10000, 16, 0x4200);
    assert Times(23, 0x21, 0x400000, 0x4200, 32, 0x4200, 32, 0x40420);
    assert Times(23, 0x21, 0x400000, 0x40420, 64, 0x40420, 64, 0x142400);
    assert Times(23, 0x21, 0x400000, 0x142400, 128, 0x142400, 128, 0x562108);
    assert Times(23, 0x21, 0x400000, 0x562108, 256, 0x562108, 256, 0x662840);
    assert Times(23, 0x21, 0x400000, 0x662840, 512, 0x662840, 512, 0x6D3842);
    assert Times(23, 0x21, 0x400000, 0x6D3842, 1024, 0x6D3842, 1024, 0x7CF204);
  }

  lemma {:induction false} Chain23Part2(leads: Leading)
    requires Closed(23, 0x21, 0x400000, leads)
    requires leads(0x7CF204, 2048)
    ensures leads(0x7AB4B0, 4096) && leads(0x6BDD80, 8192) && leads(0x6DD5C8, 32768) && leads(0x9A78A, 131072)
    ensures leads(0x593CC, 262144)
  {
    assert Times(23, 0x21, 0x400000, 0x7CF204, 2048, 0x7CF204, 2048, 0x7AB4B0);
    assert Times(23, 0x21, 0x400000, 0x7AB4B0, 4096, 0x7AB4B0, 4096, 0x6BDD80);
    assert Times(23, 0x21, 0x400000, 0x6BDD80, 8192, 0x6BDD80, 8192, 0x689FA8);
    assert Times(23, 0x21, 0x400000, 0x689FA8, 16384, 0x689FA8, 16384, 0x6DD5C8);
    assert Times(23, 0x21, 0x400000, 0x6DD5C8, 32768, 0x6DD5C8, 32768, 0x2DA7E8);
    assert Times(23, 0x21, 0x400000, 0x2DA7E8, 65536, 0x2DA7E8, 65536, 0x9A78A);
    assert Times(23, 0x21, 0x400000, 0x9A78A, 131072, 0x9A78A, 131072, 0x593CC);
  }

  lemma {:induction false} Chain23Part3(leads: Leading)
    requires Closed(23, 0x21, 0x400000, leads)
    requires leads(0x4000, 14) && leads(0x10000, 16) && leads(0x20000, 17) && leads(0x593CC, 262144)
    ensures leads(0x8400, 33) && leads(0x802, 47) && leads(0x2, 8388608)
  {
    assert Times(23, 0x21, 0x400000, 0x593CC, 262144, 0x593CC, 262144, 0x12292);
    assert Times(23, 0x21, 0x400000, 0x12292, 524288, 0x12292, 524288, 0x4020C);
    assert Times(23, 0x21, 0x400000, 0x4020C, 1048576, 0x4020C, 1048576, 0x2050);
    assert Times(23, 0x21, 0x400000, 0x2050, 2097152, 0x2050, 2097152, 0x1008);
    assert Times(23, 0x21, 0x400000, 0x1008, 4194304, 0x1008, 4194304, 0x2);
    assert Times(23, 0x21, 0x400000, 0x10000, 16, 0x20000, 17, 0x8400);
    assert Times(23, 0x21, 0x400000, 0x8400, 33, 0x4000, 14, 0x802);
  }

  lemma {:induction false} Chain23Part4(leads: Leading)
    requires Closed(23, 0x21, 0x400000, leads)
    requires leads(0x10000, 16) && leads(0x8400, 33) && leads(0x562108, 256) && leads(0x7CF204, 2048)
    requires leads(0x7AB4B0, 4096) && leads(0x6BDD80, 8192) && leads(0x6DD5C8, 32768) && leads(0x9A78A, 131072)
    ensures leads(0x7ED6FA, 178481)
  {
    assert Times(23, 0x21, 0x400000, 0x8400, 33, 0x10000, 16, 0x2008);
    assert Times(23, 0x21, 0x400000, 0x562108, 256, 0x2008, 49, 0x12AC6D);
    assert Times(23, 0x21, 0x400000, 0x7CF204, 2048, 0x12AC6D, 305, 0x5798FC);
    assert Times(23, 0x21, 0x400000, 0x7AB4B0, 4096, 0x5798FC, 2353, 0x357267);
    assert Times(23, 0x21, 0x400000, 0x6BDD80, 8192, 0x357267, 6449, 0x3C2AA2);
    assert Times(23, 0x21, 0x400000, 0x6DD5C8, 32768, 0x3C2AA2, 14641, 0x284C65);
    assert Times(23, 0x21, 0x400000, 0x9A78A, 131072, 0x284C65, 47409, 0x7ED6FA);
  }

  lemma {:induction false} Chain23(leads: Leading)
    requires Closed(23, 0x21, 0x400000, leads)
    requires leads(0x4000, 14) && leads(0x10000, 16) && leads(0x20000, 17)
    ensures leads(0x2, 8388608) && leads(0x802, 47) && leads(0x7ED6FA, 178481)
  {
    Chain23Part1(leads);
    Chain23Part2(leads);
    Chain23Part3(leads);
    Chain23Part4(leads);
  }

  lemma {:induction false} Ends23()
    ensures var leads := LeadsOf(23);
            leads(0x802, 47) && leads(0x7ED6FA, 178481) && leads(0x2, 8388608)
  {
    LowTwo(23, 23, 18, 0x20);
    assert polynomials[23] == [23, 18];
    LeadsClosed(23, 0x21, 0x400000);
    LeadsPower(23, 0x4000, 14);
    LeadsPower(23, 0x10000, 16);
    LeadsPower(23, 0x20000, 17);
    Chain23(LeadsOf(23));
  }

  lemma {:induction false} Back23()
    ensures Returns(23, 8388607) && NoneReturns(23, [178481, 47])
  {
    Ends23();
    Closes(23, 8388608);
    NotBackEither(23, 0x802, 47, 0, []);
    assert [47] + [] == [47];
    NotBackEither(23, 0x7ED6FA, 178481, 0, [47]);
    assert [178481] + [47] == [178481, 47];
  }

  lemma {:induction false} Factors23()
    ensures Factored(8388607, [47, 178481], [178481, 47])
  {
    ProductIs([178481], 178481, [], 1);
    ProductIs([47, 178481], 47, [178481], 178481);
    Prime178481();
    PrimesTo100();
  }

  lemma {:induction false} Length23()
    ensures Maximal(23)
  {
    Powers();
    Factors23();
    Back23();
    MaximalExactly(23, [47, 178481], [178481, 47]);
  }

  // ---------------------------------------------------------------------------
  // Length 24
  // ---------------------------------------------------------------------------

  lemma {:induction false} Chain24Part1(leads: Leading)
    requires Closed(24, 0x87, 0x800000, leads)
    requires leads(0x10000, 16)
    ensures leads(0x8700, 32) && leads(0x1521C0, 64) && leads(0x8EA51C, 128) && leads(0xFA9EEB, 256)
    ensures leads(0x5CBC53, 512) && leads(0x8E8666, 1024) && leads(0xFF89B3, 2048) && leads(0x415A94, 4096)
  {
    assert Times(24, 0x87, 0x800000, 0x10000, 16, 0x10000, 16, 0x8700);
    assert Times(24, 0x87, 0x800000, 0x8700, 32, 0x8700, 32, 0x1521C0);
    assert Times(24, 0x87, 0x800000, 0x1521C0, 64, 0x1521C0, 64, 0x8EA51C);
    assert Times(24, 0x87, 0x800000, 0x8EA51C, 128, 0x8EA51C, 128, 0xFA9EEB);
    assert Times(24, 0x87, 0x800000, 0xFA9EEB, 256, 0xFA9EEB, 256, 0x5CBC53);
    assert Times(24, 0x87, 0x800000, 0x5CBC53, 512, 0x5CBC53, 512, 0x8E8666);
    assert Times(24, 0x87, 0x800000, 0x8E8666, 1024, 0x8E8666, 1024, 0xFF89B3);
    assert Times(24, 0x87, 0x800000, 0xFF89B3, 2048, 0xFF89B3, 2048, 0x415A94);
  }

  lemma {:induction false} Chain24Part2(leads: Leading)
    requires Closed(24, 0x87, 0x800000, leads)
    requires leads(0x415A94, 4096)
    ensures leads(0x34CADF, 8192) && leads(0xD709EB, 16384) && leads(0x7CAB1A, 32768) && leads(0x8797AE, 65536)
    ensures leads(0xDF9E74, 131072) && leads(0x480B08, 262144) && leads(0x14C478, 524288)
    ensures leads(0x9F4CF0, 1048576)
  {
    assert Times(24, 0x87, 0x800000, 0x415A94, 4096, 0x415A94, 4096, 0x34CADF);
    assert Times(24, 0x87, 0x800000, 0x34CADF, 8192, 0x34CADF, 8192, 0xD709EB);
    assert Times(24, 0x87, 0x800000, 0xD709EB, 16384, 0xD709EB, 16384, 0x7CAB1A);
    assert Times(24, 0x87, 0x800000, 0x7CAB1A, 32768, 0x7CAB1A, 32768, 0x8797AE);
    assert Times(24, 0x87, 0x800000, 0x8797AE, 65536, 0x8797AE, 65536, 0xDF9E74);
    assert Times(24, 0x87, 0x800000, 0xDF9E74, 131072, 0xDF9E74, 131072, 0x480B08);
    assert Times(24, 0x87, 0x800000, 0x480B08, 262144, 0x480B08, 262144, 0x14C478);
    assert Times(24, 0x87, 0x800000, 0x14C478, 524288, 0x14C478, 524288, 0x9F4CF0);
  }

  lemma {:induction false} Chain24Part3(leads: Leading)
    requires Closed(24, 0x87, 0x800000, leads)
    requires leads(0x2, 1) && leads(0x4, 2) && leads(0x10, 4) && leads(0xFA9EEB, 256) && leads(0x8E8666, 1024)
    requires leads(0x8797AE, 65536) && leads(0x9F4CF0, 1048576)
    ensures leads(0xE86258, 1028) && leads(0x2F8F0E, 65793) && leads(0xBE3C38, 65795) && leads(0x3C6617, 2097152)
    ensures leads(0xA6BA77, 4194304) && leads(0x2, 16777216)
  {
    assert Times(24, 0x87, 0x800000, 0x9F4CF0, 1048576, 0x9F4CF0, 1048576, 0x3C6617);
    assert Times(24, 0x87, 0x800000, 0x3C6617, 2097152, 0x3C6617, 2097152, 0xA6BA77);
    assert Times(24, 0x87, 0x800000, 0xA6BA77, 4194304, 0xA6BA77, 4194304, 0x924B27);
    assert Times(24, 0x87, 0x800000, 0x924B27, 8388608, 0x924B27, 8388608, 0x2);
    assert Times(24, 0x87, 0x800000, 0xFA9EEB, 256, 0x2, 1, 0xF53D51);
    assert Times(24, 0x87, 0x800000, 0x8797AE, 65536, 0xF53D51, 257, 0x2F8F0E);
    assert Times(24, 0x87, 0x800000, 0x2F8F0E, 65793, 0x4, 2, 0xBE3C38);
    assert Times(24, 0x87, 0x800000, 0x8E8666, 1024, 0x10, 4, 0xE86258);
  }

  lemma {:induction false} Chain24Part4(leads: Leading)
    requires Closed(24, 0x87, 0x800000, leads)
    requires leads(0x100, 8) && leads(0x10000, 16) && leads(0x8700, 32) && leads(0x1521C0, 64)
    requires leads(0x5CBC53, 512) && leads(0xE86258, 1028) && leads(0xFF89B3, 2048) && leads(0x415A94, 4096)
    requires leads(0x34CADF, 8192) && leads(0xBE3C38, 65795) && leads(0xDF9E74, 131072) && leads(0x9F4CF0, 1048576)
    ensures leads(0xBC7C94, 520) && leads(0xB92887, 584) && leads(0x9A56C0, 3076) && leads(0x872EFC, 65827)
    ensures leads(0x10A978, 205091) && leads(0xD57317, 1052688)
  {
    assert Times(24, 0x87, 0x800000, 0x5CBC53, 512, 0x100, 8, 0xBC7C94);
    assert Times(24, 0x87, 0x800000, 0x415A94, 4096, 0x10000, 16, 0xB56B86);
    assert Times(24, 0x87, 0x800000, 0xBE3C38, 65795, 0x8700, 32, 0x872EFC);
    assert Times(24, 0x87, 0x800000, 0x9F4CF0, 1048576, 0xB56B86, 4112, 0xD57317);
    assert Times(24, 0x87, 0x800000, 0xBC7C94, 520, 0x1521C0, 64, 0xB92887);
    assert Times(24, 0x87, 0x800000, 0xFF89B3, 2048, 0xE86258, 1028, 0x9A56C0);
    assert Times(24, 0x87, 0x800000, 0x872EFC, 65827, 0x34CADF, 8192, 0xEB4E54);
    assert Times(24, 0x87, 0x800000, 0xDF9E74, 131072, 0xEB4E54, 74019, 0x10A978);
  }

  lemma {:induction false} Chain24Part5(leads: Leading)
    requires Closed(24, 0x87, 0x800000, leads)
    requires leads(0x2, 1) && leads(0x100, 8) && leads(0x1521C0, 64) && leads(0x8EA51C, 128) && leads(0x5CBC53, 512)
    requires leads(0xBC7C94, 520) && leads(0xB92887, 584) && leads(0xE86258, 1028) && leads(0x9A56C0, 3076)
    requires leads(0x415A94, 4096) && leads(0x7CAB1A, 32768) && leads(0x10A978, 205091) && leads(0xD57317, 1052688)
    ensures leads(0x807FC, 712) && leads(0x70EC2E, 1092) && leads(0x1A4465, 3596) && leads(0x718AEF, 4681)
    ensures leads(0xAB2574, 32776) && leads(0xCF9A8E, 1257779) && leads(0xD4130B, 1258291)
  {
    assert Times(24, 0x87, 0x800000, 0xD57317, 1052688, 0x10A978, 205091, 0xCF9A8E);
    assert Times(24, 0x87, 0x800000, 0xB92887, 584, 0x2, 1, 0x725189);
    assert Times(24, 0x87, 0x800000, 0x7CAB1A, 32768, 0x100, 8, 0xAB2574);
    assert Times(24, 0x87, 0x800000, 0xE86258, 1028, 0x1521C0, 64, 0x70EC2E);
    assert Times(24, 0x87, 0x800000, 0xB92887, 584, 0x8EA51C, 128, 0x807FC);
    assert Times(24, 0x87, 0x800000, 0xCF9A8E, 1257779, 0x5CBC53, 512, 0xD4130B);
    assert Times(24, 0x87, 0x800000, 0x9A56C0, 3076, 0xBC7C94, 520, 0x1A4465);
    assert Times(24, 0x87, 0x800000, 0x415A94, 4096, 0x725189, 585, 0x718AEF);
  }

  lemma {:induction false} Chain24Part6(leads: Leading)
    requires Closed(24, 0x87, 0x800000, leads)
    requires leads(0x807FC, 712) && leads(0x70EC2E, 1092) && leads(0x9A56C0, 3076) && leads(0x1A4465, 3596)
    requires leads(0x718AEF, 4681) && leads(0xD709EB, 16384) && leads(0x7CAB1A, 32768) && leads(0xAB2574, 32776)
    requires leads(0x2F8F0E, 65793) && leads(0xBE3C38, 65795) && leads(0x872EFC, 65827) && leads(0x480B08, 262144)
    requires leads(0xCF9A8E, 1257779)
    ensures leads(0x4DE4A8, 69391) && leads(0x5B114C, 69615) && leads(0xAC6A1D, 83269) && leads(0xAA1D47, 299593)
    ensures leads(0xBA445D, 1290555)
  {
    assert Times(24, 0x87, 0x800000, 0x9A56C0, 3076, 0x807FC, 712, 0x3C7C1C);
    assert Times(24, 0x87, 0x800000, 0xD709EB, 16384, 0x70EC2E, 1092, 0x86A529);
    assert Times(24, 0x87, 0x800000, 0xBE3C38, 65795, 0x1A4465, 3596, 0x4DE4A8);
    assert Times(24, 0x87, 0x800000, 0x872EFC, 65827, 0x3C7C1C, 3788, 0x5B114C);
    assert Times(24, 0x87, 0x800000, 0x7CAB1A, 32768, 0x718AEF, 4681, 0x7E23E1);
    assert Times(24, 0x87, 0x800000, 0x2F8F0E, 65793, 0x86A529, 17476, 0xAC6A1D);
    assert Times(24, 0x87, 0x800000, 0xCF9A8E, 1257779, 0xAB2574, 32776, 0xBA445D);
    assert Times(24, 0x87, 0x800000, 0x480B08, 262144, 0x7E23E1, 37449, 0xAA1D47);
  }

  lemma {:induction false} Chain24Part7(leads: Leading)
    requires Closed(24, 0x87, 0x800000, leads)
    requires leads(0x4DE4A8, 69391) && leads(0xAC6A1D, 83269) && leads(0xDF9E74, 131072) && leads(0x480B08, 262144)
    requires leads(0xAA1D47, 299593) && leads(0x14C478, 524288) && leads(0xD57317, 1052688)
    requires leads(0xD4130B, 1258291) && leads(0x3C6617, 2097152) && leads(0xA6BA77, 4194304)
    ensures leads(0xF600AC, 986895) && leads(0xAEABBF, 2396745) && leads(0x71F5F2, 3355443)
    ensures leads(0x2916C9, 5592405)
  {
    assert Times(24, 0x87, 0x800000, 0xDF9E74, 131072, 0x4DE4A8, 69391, 0x359375);
    assert Times(24, 0x87, 0x800000, 0x480B08, 262144, 0xAC6A1D, 83269, 0xD04456);
    assert Times(24, 0x87, 0x800000, 0x480B08, 262144, 0x359375, 200463, 0x280931);
    assert Times(24, 0x87, 0x800000, 0x3C6617, 2097152, 0xAA1D47, 299593, 0xAEABBF);
    assert Times(24, 0x87, 0x800000, 0xD57317, 1052688, 0xD04456, 345413, 0x32EDFE);
    assert Times(24, 0x87, 0x800000, 0x14C478, 524288, 0x280931, 462607, 0xF600AC);
    assert Times(24, 0x87, 0x800000, 0x3C6617, 2097152, 0xD4130B, 1258291, 0x71F5F2);
    assert Times(24, 0x87, 0x800000, 0xA6BA77, 4194304, 0x32EDFE, 1398101, 0x2916C9);
  }

  lemma {:induction false} Chain24(leads: Leading)
    requires Closed(24, 0x87, 0x800000, leads)
    requires leads(0x2, 1) && leads(0x4, 2) && leads(0x10, 4) && leads(0x100, 8) && leads(0x10000, 16)
    ensures leads(0x2, 16777216) && leads(0x5B114C, 69615) && leads(0xF600AC, 986895) && leads(0xBA445D, 1290555)
    ensures leads(0xAEABBF, 2396745) && leads(0x71F5F2, 3355443) && leads(0x2916C9, 5592405)
  {
    Chain24Part1(leads);
    Chain24Part2(leads);
    Chain24Part3(leads);
    Chain24Part4(leads);
    Chain24Part5(leads);
    Chain24Part6(leads);
    Chain24Part7(leads);
  }

  lemma {:induction false} Ends24()
    ensures var leads := LeadsOf(24);
            && leads(0x5B114C, 69615) && leads(0xF600AC, 986895) && leads(0xBA445D, 1290555)
            && leads(0xAEABBF, 2396745) && leads(0x71F5F2, 3355443) && leads(0x2916C9, 5592405)
            && leads(0x2, 16777216)
  {
    LowFour(24, 24, 23, 22, 17, 0x86);
    assert polynomials[24] == [24, 23, 22, 17];
    LeadsClosed(24, 0x87, 0x800000);
    LeadsPower(24, 0x2, 1);
    LeadsPower(24, 0x4, 2);
    LeadsPower(24, 0x10, 4);
    LeadsPower(24, 0x100, 8);
    LeadsPower(24, 0x10000, 16);
    Chain24(LeadsOf(24));
  }

  lemma {:induction false} NotBack24From4()
    ensures NoneReturns(24, [1290555, 986895, 69615])
  {
    Ends24();
    NotBackEither(24, 0x5B114C, 69615, 0, []);
    assert [69615] + [] == [69615];
    NotBackEither(24, 0xF600AC, 986895, 0, [69615]);
    assert [986895] + [69615] == [986895, 69615];
    NotBackEither(24, 0xBA445D, 1290555, 2, [986895, 69615]);
    assert [1290555] + [986895, 69615] == [1290555, 986895, 69615];
  }

  lemma {:induction false} NotBack24From1()
    ensures NoneReturns(24, [5592405, 3355443, 2396745, 1290555, 986895, 69615])
  {
    Ends24();
    NotBack24From4();
    NotBackEither(24, 0xAEABBF, 2396745, 1, [1290555, 986895, 69615]);
    assert [2396745] + [1290555, 986895, 69615] == [2396745, 1290555, 986895, 69615];
    NotBackEither(24, 0x71F5F2, 3355443, 0, [2396745, 1290555, 986895, 69615]);
    assert [3355443] + [2396745, 1290555, 986895, 69615] == [3355443, 2396745, 1290555, 986895, 69615];
    NotBackEither(24, 0x2916C9, 5592405, 3, [3355443, 2396745, 1290555, 986895, 69615]);
    assert [5592405] + [3355443, 2396745, 1290555, 986895, 69615]
      == [5592405, 3355443, 2396745, 1290555, 986895, 69615];
  }

  lemma {:induction false} Back24()
    ensures Returns(24, 16777215) && NoneReturns(24, [5592405, 5592405, 3355443, 2396745, 1290555, 986895, 69615])
  {
    Ends24();
    NotBack24From1();
    Closes(24, 16777216);
    NotBackEither(24, 0x2916C9, 5592405, 3, [5592405, 3355443, 2396745, 1290555, 986895, 69615]);
    assert [5592405] + [5592405, 3355443, 2396745, 1290555, 986895, 69615]
      == [5592405, 5592405, 3355443, 2396745, 1290555, 986895, 69615];
  }

  lemma {:induction false} ProductTail24()
    ensures Product([13, 17, 241]) == 53261
  {
    ProductIs([241], 241, [], 1);
    ProductIs([17, 241], 17, [241], 241);
    ProductIs([13, 17, 241], 13, [17, 241], 4097);
  }

  lemma {:induction false} Factors24()
    ensures Factored(16777215, [3, 3, 5, 7, 13, 17, 241], [5592405, 5592405, 3355443, 2396745, 1290555, 986895,
      69615])
  {
    ProductTail24();
    ProductIs([7, 13, 17, 241], 7, [13, 17, 241], 53261);
    ProductIs([5, 7, 13, 17, 241], 5, [7, 13, 17, 241], 372827);
    ProductIs([3, 5, 7, 13, 17, 241], 3, [5, 7, 13, 17, 241], 1864135);
    ProductIs([3, 3, 5, 7, 13, 17, 241], 3, [3, 5, 7, 13, 17, 241], 5592405);
    PrimesTo20();
    PrimesTo400();
  }

  lemma {:induction false} Length24()
    ensures Maximal(24)
  {
    Powers();
    Factors24();
    Back24();
    MaximalExactly(24, [3, 3, 5, 7, 13, 17, 241], [5592405, 5592405, 3355443, 2396745, 1290555, 986895, 69615]);
  }
}
