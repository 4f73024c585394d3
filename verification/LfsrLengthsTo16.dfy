/**
 Certificates that the lengths 2 to 16 of the lfsr are maximal: for each length the powers x^(2^i) of the polynomial x,
 the last of which is x again, and for each prime factor q of 2^N - 1 the power x^((2^N - 1) / q), which is not one.
 */
module LfsrLengthsTo16 {
  import opened Orbits
  import opened PrimeFactors
  import opened RegisterWord
  import opened LfsrPeriods

  // ---------------------------------------------------------------------------
  // Length 2
  // ---------------------------------------------------------------------------

  lemma {:induction false} Chain2(leads: Leading)
    requires Closed(2, 0x3, 0x2, leads)
    requires leads(0x2, 1)
    ensures leads(0x2, 4)
  {
    assert Times(2, 0x3, 0x2, 0x2, 1, 0x2, 1, 0x3);
    assert Times(2, 0x3, 0x2, 0x3, 2, 0x3, 2, 0x2);
  }

  lemma {:induction false} Ends2()
    ensures var leads := LeadsOf(2);
            leads(0x2, 1) && leads(0x2, 4)
  {
    LowTwo(2, 2, 1, 0x2);
    assert polynomials[2] == [2, 1];
    LeadsClosed(2, 0x3, 0x2);
    LeadsPower(2, 0x2, 1);
    Chain2(LeadsOf(2));
  }

  lemma {:induction false} Back2()
    ensures Returns(2, 3) && NoneReturns(2, [1])
  {
    Ends2();
    Closes(2, 4);
    NotBackEither(2, 0x2, 1, 0, []);
    assert [1] + [] == [1];
  }

  lemma {:induction false} Length2()
    ensures Maximal(2)
  {
    Powers();
    ProductIs([3], 3, [], 1);
    PrimesTo20();
    Back2();
    MaximalExactly(2, [3], [1]);
  }

  // ---------------------------------------------------------------------------
  // Length 3
  // ---------------------------------------------------------------------------

  lemma {:induction false} Chain3(leads: Leading)
    requires Closed(3, 0x3, 0x4, leads)
    requires leads(0x4, 2)
    ensures leads(0x2, 8)
  {
    assert Times(3, 0x3, 0x4, 0x4, 2, 0x4, 2, 0x6);
    assert Times(3, 0x3, 0x4, 0x6, 4, 0x6, 4, 0x2);
  }

  lemma {:induction false} Ends3()
    ensures var leads := LeadsOf(3);
            leads(0x2, 1) && leads(0x2, 8)
  {
    LowTwo(3, 3, 2, 0x2);
    assert polynomials[3] == [3, 2];
    LeadsClosed(3, 0x3, 0x4);
    LeadsPower(3, 0x2, 1);
    LeadsPower(3, 0x4, 2);
    Chain3(LeadsOf(3));
  }

  lemma {:induction false} Back3()
    ensures Returns(3, 7) && NoneReturns(3, [1])
  {
    Ends3();
    Closes(3, 8);
    NotBackEither(3, 0x2, 1, 0, []);
    assert [1] + [] == [1];
  }

  lemma {:induction false} Length3()
    ensures Maximal(3)
  {
    Powers();
    ProductIs([7], 7, [], 1);
    PrimesTo20();
    Back3();
    MaximalExactly(3, [7], [1]);
  }

  // ---------------------------------------------------------------------------
  // Length 4
  // ---------------------------------------------------------------------------

  lemma {:induction false} Chain4(leads: Leading)
    requires Closed(4, 0x3, 0x8, leads)
    requires leads(0x4, 2) && leads(0x8, 3)
    ensures leads(0x6, 5) && leads(0x2, 16)
  {
    assert Times(4, 0x3, 0x8, 0x4, 2, 0x4, 2, 0x3);
    assert Times(4, 0x3, 0x8, 0x3, 4, 0x3, 4, 0x5);
    assert Times(4, 0x3, 0x8, 0x5, 8, 0x5, 8, 0x2);
    assert Times(4, 0x3, 0x8, 0x4, 2, 0x8, 3, 0x6);
  }

  lemma {:induction false} Ends4()
    ensures var leads := LeadsOf(4);
            leads(0x8, 3) && leads(0x6, 5) && leads(0x2, 16)
  {
    LowTwo(4, 4, 3, 0x2);
    assert polynomials[4] == [4, 3];
    LeadsClosed(4, 0x3, 0x8);
    LeadsPower(4, 0x4, 2);
    LeadsPower(4, 0x8, 3);
    Chain4(LeadsOf(4));
  }

  lemma {:induction false} Back4()
    ensures Returns(4, 15) && NoneReturns(4, [5, 3])
  {
    Ends4();
    Closes(4, 16);
    NotBackEither(4, 0x8, 3, 0, []);
    assert [3] + [] == [3];
    NotBackEither(4, 0x6, 5, 0, [3]);
    assert [5] + [3] == [5, 3];
  }

  lemma {:induction false} Factors4()
    ensures Factored(15, [3, 5], [5, 3])
  {
    ProductIs([5], 5, [], 1);
    ProductIs([3, 5], 3, [5], 5);
    PrimesTo20();
  }

  lemma {:induction false} Length4()
    ensures Maximal(4)
  {
    Powers();
    Factors4();
    Back4();
    MaximalExactly(4, [3, 5], [5, 3]);
  }

  // ---------------------------------------------------------------------------
  // Length 5
  // ---------------------------------------------------------------------------

  lemma {:induction false} Chain5(leads: Leading)
    requires Closed(5, 0x5, 0x10, leads)
    requires leads(0x10, 4)
    ensures leads(0x2, 32)
  {
    assert Times(5, 0x5, 0x10, 0x10, 4, 0x10, 4, 0xD);
    assert Times(5, 0x5, 0x10, 0xD, 8, 0xD, 8, 0x1B);
    assert Times(5, 0x5, 0x10, 0x1B, 16, 0x1B, 16, 0x2);
  }

  lemma {:induction false} Ends5()
    ensures var leads := LeadsOf(5);
            leads(0x2, 1) && leads(0x2, 32)
  {
    LowTwo(5, 5, 3, 0x4);
    assert polynomials[5] == [5, 3];
    LeadsClosed(5, 0x5, 0x10);
    LeadsPower(5, 0x2, 1);
    LeadsPower(5, 0x10, 4);
    Chain5(LeadsOf(5));
  }

  lemma {:induction false} Back5()
    ensures Returns(5, 31) && NoneReturns(5, [1])
  {
    Ends5();
    Closes(5, 32);
    NotBackEither(5, 0x2, 1, 0, []);
    assert [1] + [] == [1];
  }

  lemma {:induction false} Length5()
    ensures Maximal(5)
  {
    Powers();
    ProductIs([31], 31, [], 1);
    PrimesTo100();
    Back5();
    MaximalExactly(5, [31], [1]);
  }

  // ---------------------------------------------------------------------------
  // Length 6
  // ---------------------------------------------------------------------------

  lemma {:induction false} Chain6(leads: Leading)
    requires Closed(6, 0x3, 0x20, leads)
    requires leads(0x10, 4) && leads(0x20, 5)
    ensures leads(0x18, 9) && leads(0x3B, 21) && leads(0x2, 64)
  {
    assert Times(6, 0x3, 0x20, 0x10, 4, 0x10, 4, 0xC);
    assert Times(6, 0x3, 0x20, 0xC, 8, 0xC, 8, 0x13);
    assert Times(6, 0x3, 0x20, 0x13, 16, 0x13, 16, 0x9);
    assert Times(6, 0x3, 0x20, 0x9, 32, 0x9, 32, 0x2);
    assert Times(6, 0x3, 0x20, 0x10, 4, 0x20, 5, 0x18);
    assert Times(6, 0x3, 0x20, 0x13, 16, 0x20, 5, 0x3B);
  }

  lemma {:induction false} Ends6()
    ensures var leads := LeadsOf(6);
            leads(0x18, 9) && leads(0x3B, 21) && leads(0x2, 64)
  {
    LowTwo(6, 6, 5, 0x2);
    assert polynomials[6] == [6, 5];
    LeadsClosed(6, 0x3, 0x20);
    LeadsPower(6, 0x10, 4);
    LeadsPower(6, 0x20, 5);
    Chain6(LeadsOf(6));
  }

  lemma {:induction false} Back6()
    ensures Returns(6, 63) && NoneReturns(6, [21, 21, 9])
  {
    Ends6();
    Closes(6, 64);
    NotBackEither(6, 0x18, 9, 0, []);
    assert [9] + [] == [9];
    NotBackEither(6, 0x3B, 21, 1, [9]);
    assert [21] + [9] == [21, 9];
    NotBackEither(6, 0x3B, 21, 1, [21, 9]);
    assert [21] + [21, 9] == [21, 21, 9];
  }

  lemma {:induction false} Factors6()
    ensures Factored(63, [3, 3, 7], [21, 21, 9])
  {
    ProductIs([7], 7, [], 1);
    ProductIs([3, 7], 3, [7], 7);
    ProductIs([3, 3, 7], 3, [3, 7], 21);
    PrimesTo20();
  }

  lemma {:induction false} Length6()
    ensures Maximal(6)
  {
    Powers();
    Factors6();
    Back6();
    MaximalExactly(6, [3, 3, 7], [21, 21, 9]);
  }

  // ---------------------------------------------------------------------------
  // Length 7
  // ---------------------------------------------------------------------------

  lemma {:induction false} Chain7(leads: Leading)
    requires Closed(7, 0x3, 0x40, leads)
    requires leads(0x10, 4)
    ensures leads(0x2, 128)
  {
    assert Times(7, 0x3, 0x40, 0x10, 4, 0x10, 4, 0x6);
    assert Times(7, 0x3, 0x40, 0x6, 8, 0x6, 8, 0x14);
    assert Times(7, 0x3, 0x40, 0x14, 16, 0x14, 16, 0x16);
    assert Times(7, 0x3, 0x40, 0x16, 32, 0x16, 32, 0x12);
    assert Times(7, 0x3, 0x40, 0x12, 64, 0x12, 64, 0x2);
  }

  lemma {:induction false} Ends7()
    ensures var leads := LeadsOf(7);
            leads(0x2, 1) && leads(0x2, 128)
  {
    LowTwo(7, 7, 6, 0x2);
    assert polynomials[7] == [7, 6];
    LeadsClosed(7, 0x3, 0x40);
    LeadsPower(7, 0x2, 1);
    LeadsPower(7, 0x10, 4);
    Chain7(LeadsOf(7));
  }

  lemma {:induction false} Back7()
    ensures Returns(7, 127) && NoneReturns(7, [1])
  {
    Ends7();
    Closes(7, 128);
    NotBackEither(7, 0x2, 1, 0, []);
    assert [1] + [] == [1];
  }

  lemma {:induction false} Length7()
    ensures Maximal(7)
  {
    Powers();
    ProductIs([127], 127, [], 1);
    PrimesTo400();
    Back7();
    MaximalExactly(7, [127], [1]);
  }

  // ---------------------------------------------------------------------------
  // Length 8
  // ---------------------------------------------------------------------------

  lemma {:induction false} Chain8Part1(leads: Leading)
    requires Closed(8, 0x1D, 0x80, leads)
    requires leads(0x10, 4)
    ensures leads(0x1D, 8) && leads(0x4C, 16) && leads(0x9D, 32) && leads(0x5F, 64) && leads(0x2, 256)
  {
    assert Times(8, 0x1D, 0x80, 0x10, 4, 0x10, 4, 0x1D);
    assert Times(8, 0x1D, 0x80, 0x1D, 8, 0x1D, 8, 0x4C);
    assert Times(8, 0x1D, 0x80, 0x4C, 16, 0x4C, 16, 0x9D);
    assert Times(8, 0x1D, 0x80, 0x9D, 32, 0x9D, 32, 0x5F);
    assert Times(8, 0x1D, 0x80, 0x5F, 64, 0x5F, 64, 0x85);
    assert Times(8, 0x1D, 0x80, 0x85, 128, 0x85, 128, 0x2);
  }

  lemma {:induction false} Chain8Part2(leads: Leading)
    requires Closed(8, 0x1D, 0x80, leads)
    requires leads(0x8, 3) && leads(0x20, 5) && leads(0x80, 7) && leads(0x1D, 8) && leads(0x4C, 16)
    requires leads(0x9D, 32) && leads(0x5F, 64)
    ensures leads(0x26, 15) && leads(0xA, 51) && leads(0xD6, 85)
  {
    assert Times(8, 0x1D, 0x80, 0x4C, 16, 0x8, 3, 0x5A);
    assert Times(8, 0x1D, 0x80, 0x4C, 16, 0x20, 5, 0x75);
    assert Times(8, 0x1D, 0x80, 0x1D, 8, 0x80, 7, 0x26);
    assert Times(8, 0x1D, 0x80, 0x9D, 32, 0x5A, 19, 0xA);
    assert Times(8, 0x1D, 0x80, 0x5F, 64, 0x75, 21, 0xD6);
  }

  lemma {:induction false} Chain8(leads: Leading)
    requires Closed(8, 0x1D, 0x80, leads)
    requires leads(0x8, 3) && leads(0x10, 4) && leads(0x20, 5) && leads(0x80, 7)
    ensures leads(0x2, 256) && leads(0x26, 15) && leads(0xA, 51) && leads(0xD6, 85)
  {
    Chain8Part1(leads);
    Chain8Part2(leads);
  }

  lemma {:induction false} Ends8()
    ensures var leads := LeadsOf(8);
            leads(0x26, 15) && leads(0xA, 51) && leads(0xD6, 85) && leads(0x2, 256)
  {
    LowFour(8, 8, 6, 5, 4, 0x1C);
    assert polynomials[8] == [8, 6, 5, 4];
    LeadsClosed(8, 0x1D, 0x80);
    LeadsPower(8, 0x8, 3);
    LeadsPower(8, 0x10, 4);
    LeadsPower(8, 0x20, 5);
    LeadsPower(8, 0x80, 7);
    Chain8(LeadsOf(8));
  }

  lemma {:induction false} Back8()
    ensures Returns(8, 255) && NoneReturns(8, [85, 51, 15])
  {
    Ends8();
    Closes(8, 256);
    NotBackEither(8, 0x26, 15, 0, []);
    assert [15] + [] == [15];
    NotBackEither(8, 0xA, 51, 0, [15]);
    assert [51] + [15] == [51, 15];
    NotBackEither(8, 0xD6, 85, 0, [51, 15]);
    assert [85] + [51, 15] == [85, 51, 15];
  }

  lemma {:induction false} Factors8()
    ensures Factored(255, [3, 5, 17], [85, 51, 15])
  {
    ProductIs([17], 17, [], 1);
    ProductIs([5, 17], 5, [17], 17);
    ProductIs([3, 5, 17], 3, [5, 17], 85);
    PrimesTo20();
  }

  lemma {:induction false} Length8()
    ensures Maximal(8)
  {
    Powers();
    Factors8();
    Back8();
    MaximalExactly(8, [3, 5, 17], [85, 51, 15]);
  }

  // ---------------------------------------------------------------------------
  // Length 9
  // ---------------------------------------------------------------------------

  lemma {:induction false} Chain9(leads: Leading)
    requires Closed(9, 0x11, 0x100, leads)
    requires leads(0x10, 4) && leads(0x20, 5) && leads(0x100, 8)
    ensures leads(0x150, 73) && leads(0x2, 512)
  {
    assert Times(9, 0x11, 0x100, 0x100, 8, 0x100, 8, 0xC4);
    assert Times(9, 0x11, 0x100, 0xC4, 16, 0xC4, 16, 0xA9);
    assert Times(9, 0x11, 0x100, 0xA9, 32, 0xA9, 32, 0x52);
    assert Times(9, 0x11, 0x100, 0x52, 64, 0x52, 64, 0x18C);
    assert Times(9, 0x11, 0x100, 0x18C, 128, 0x18C, 128, 0xA5);
    assert Times(9, 0x11, 0x100, 0xA5, 256, 0xA5, 256, 0x2);
    assert Times(9, 0x11, 0x100, 0x10, 4, 0x20, 5, 0x11);
    assert Times(9, 0x11, 0x100, 0x52, 64, 0x11, 9, 0x150);
  }

  lemma {:induction false} Ends9()
    ensures var leads := LeadsOf(9);
            leads(0x80, 7) && leads(0x150, 73) && leads(0x2, 512)
  {
    LowTwo(9, 9, 5, 0x10);
    assert polynomials[9] == [9, 5];
    LeadsClosed(9, 0x11, 0x100);
    LeadsPower(9, 0x10, 4);
    LeadsPower(9, 0x20, 5);
    LeadsPower(9, 0x80, 7);
    LeadsPower(9, 0x100, 8);
    Chain9(LeadsOf(9));
  }

  lemma {:induction false} Back9()
    ensures Returns(9, 511) && NoneReturns(9, [73, 7])
  {
    Ends9();
    Closes(9, 512);
    NotBackEither(9, 0x80, 7, 0, []);
    assert [7] + [] == [7];
    NotBackEither(9, 0x150, 73, 0, [7]);
    assert [73] + [7] == [73, 7];
  }

  lemma {:induction false} Factors9()
    ensures Factored(511, [7, 73], [73, 7])
  {
    ProductIs([73], 73, [], 1);
    ProductIs([7, 73], 7, [73], 73);
    PrimesTo100();
    PrimesTo20();
  }

  lemma {:induction false} Length9()
    ensures Maximal(9)
  {
    Powers();
    Factors9();
    Back9();
    MaximalExactly(9, [7, 73], [73, 7]);
  }

  // ---------------------------------------------------------------------------
  // Length 10
  // ---------------------------------------------------------------------------

  lemma {:induction false} Chain10Part1(leads: Leading)
    requires Closed(10, 0x9, 0x200, leads)
    requires leads(0x100, 8)
    ensures leads(0x240, 16) && leads(0x136, 32) && leads(0x35D, 64) && leads(0x10E, 256) && leads(0x214, 512)
  {
    assert Times(10, 0x9, 0x200, 0x100, 8, 0x100, 8, 0x240);
    assert Times(10, 0x9, 0x200, 0x240, 16, 0x240, 16, 0x136);
    assert Times(10, 0x9, 0x200, 0x136, 32, 0x136, 32, 0x35D);
    assert Times(10, 0x9, 0x200, 0x35D, 64, 0x35D, 64, 0x227);
    assert Times(10, 0x9, 0x200, 0x227, 128, 0x227, 128, 0x10E);
    assert Times(10, 0x9, 0x200, 0x10E, 256, 0x10E, 256, 0x214);
  }

  lemma {:induction false} Chain10Part2(leads: Leading)
    requires Closed(10, 0x9, 0x200, leads)
    requires leads(0x2, 1) && leads(0x20, 5) && leads(0x100, 8) && leads(0x240, 16) && leads(0x136, 32)
    requires leads(0x35D, 64) && leads(0x10E, 256) && leads(0x214, 512)
    ensures leads(0x26C, 33) && leads(0x2C9, 93) && leads(0xED, 341) && leads(0x2, 1024)
  {
    assert Times(10, 0x9, 0x200, 0x214, 512, 0x214, 512, 0x2);
    assert Times(10, 0x9, 0x200, 0x240, 16, 0x20, 5, 0x82);
    assert Times(10, 0x9, 0x200, 0x35D, 64, 0x82, 21, 0x300);
    assert Times(10, 0x9, 0x200, 0x136, 32, 0x2, 1, 0x26C);
    assert Times(10, 0x9, 0x200, 0x300, 85, 0x100, 8, 0x2C9);
    assert Times(10, 0x9, 0x200, 0x10E, 256, 0x300, 85, 0xED);
  }

  lemma {:induction false} Chain10(leads: Leading)
    requires Closed(10, 0x9, 0x200, leads)
    requires leads(0x2, 1) && leads(0x20, 5) && leads(0x100, 8)
    ensures leads(0x2, 1024) && leads(0x26C, 33) && leads(0x2C9, 93) && leads(0xED, 341)
  {
    Chain10Part1(leads);
    Chain10Part2(leads);
  }

  lemma {:induction false} Ends10()
    ensures var leads := LeadsOf(10);
            leads(0x26C, 33) && leads(0x2C9, 93) && leads(0xED, 341) && leads(0x2, 1024)
  {
    LowTwo(10, 10, 7, 0x8);
    assert polynomials[10] == [10, 7];
    LeadsClosed(10, 0x9, 0x200);
    LeadsPower(10, 0x2, 1);
    LeadsPower(10, 0x20, 5);
    LeadsPower(10, 0x100, 8);
    Chain10(LeadsOf(10));
  }

  lemma {:induction false} Back10()
    ensures Returns(10, 1023) && NoneReturns(10, [341, 93, 33])
  {
    Ends10();
    Closes(10, 1024);
    NotBackEither(10, 0x26C, 33, 0, []);
    assert [33] + [] == [33];
    NotBackEither(10, 0x2C9, 93, 3, [33]);
    assert [93] + [33] == [93, 33];
    NotBackEither(10, 0xED, 341, 2, [93, 33]);
    assert [341] + [93, 33] == [341, 93, 33];
  }

  lemma {:induction false} Factors10()
    ensures Factored(1023, [3, 11, 31], [341, 93, 33])
  {
    ProductIs([31], 31, [], 1);
    ProductIs([11, 31], 11, [31], 31);
    ProductIs([3, 11, 31], 3, [11, 31], 341);
    PrimesTo100();
    PrimesTo20();
  }

  lemma {:induction false} Length10()
    ensures Maximal(10)
  {
    Powers();
    Factors10();
    Back10();
    MaximalExactly(10, [3, 11, 31], [341, 93, 33]);
  }

  // ---------------------------------------------------------------------------
  // Length 11
  // ---------------------------------------------------------------------------

  lemma {:induction false} Chain11Part1(leads: Leading)
    requires Closed(11, 0x5, 0x400, leads)
    requires leads(0x100, 8)
    ensures leads(0x645, 64) && leads(0x5FA, 512)
  {
    assert Times(11, 0x5, 0x400, 0x100, 8, 0x100, 8, 0xA0);
    assert Times(11, 0x5, 0x400, 0xA0, 16, 0xA0, 16, 0x428);
    assert Times(11, 0x5, 0x400, 0x428, 32, 0x428, 32, 0x645);
    assert Times(11, 0x5, 0x400, 0x645, 64, 0x645, 64, 0x9E);
    assert Times(11, 0x5, 0x400, 0x9E, 128, 0x9E, 128, 0x17C);
    assert Times(11, 0x5, 0x400, 0x17C, 256, 0x17C, 256, 0x5FA);
  }

  lemma {:induction false} Chain11Part2(leads: Leading)
    requires Closed(11, 0x5, 0x400, leads)
    requires leads(0x40, 6) && leads(0x100, 8) && leads(0x200, 9) && leads(0x645, 64) && leads(0x5FA, 512)
    ensures leads(0x22, 23) && leads(0x142, 89) && leads(0x2, 2048)
  {
    assert Times(11, 0x5, 0x400, 0x5FA, 512, 0x5FA, 512, 0x7C3);
    assert Times(11, 0x5, 0x400, 0x7C3, 1024, 0x7C3, 1024, 0x2);
    assert Times(11, 0x5, 0x400, 0x100, 8, 0x200, 9, 0x140);
    assert Times(11, 0x5, 0x400, 0x140, 17, 0x40, 6, 0x22);
    assert Times(11, 0x5, 0x400, 0x140, 17, 0x100, 8, 0x88);
    assert Times(11, 0x5, 0x400, 0x645, 64, 0x88, 25, 0x142);
  }

  lemma {:induction false} Chain11(leads: Leading)
    requires Closed(11, 0x5, 0x400, leads)
    requires leads(0x40, 6) && leads(0x100, 8) && leads(0x200, 9)
    ensures leads(0x2, 2048) && leads(0x22, 23) && leads(0x142, 89)
  {
    Chain11Part1(leads);
    Chain11Part2(leads);
  }

  lemma {:induction false} Ends11()
    ensures var leads := LeadsOf(11);
            leads(0x22, 23) && leads(0x142, 89) && leads(0x2, 2048)
  {
    LowTwo(11, 11, 9, 0x4);
    assert polynomials[11] == [11, 9];
    LeadsClosed(11, 0x5, 0x400);
    LeadsPower(11, 0x40, 6);
    LeadsPower(11, 0x100, 8);
    LeadsPower(11, 0x200, 9);
    Chain11(LeadsOf(11));
  }

  lemma {:induction false} Back11()
    ensures Returns(11, 2047) && NoneReturns(11, [89, 23])
  {
    Ends11();
    Closes(11, 2048);
    NotBackEither(11, 0x22, 23, 0, []);
    assert [23] + [] == [23];
    NotBackEither(11, 0x142, 89, 0, [23]);
    assert [89] + [23] == [89, 23];
  }

  lemma {:induction false} Factors11()
    ensures Factored(2047, [23, 89], [89, 23])
  {
    ProductIs([89], 89, [], 1);
    ProductIs([23, 89], 23, [89], 89);
    PrimesTo100();
  }

  lemma {:induction false} Length11()
    ensures Maximal(11)
  {
    Powers();
    Factors11();
    Back11();
    MaximalExactly(11, [23, 89], [89, 23]);
  }

  // ---------------------------------------------------------------------------
  // Length 12
  // ---------------------------------------------------------------------------

  lemma {:induction false} Chain12Part1(leads: Leading)
    requires Closed(12, 0x107, 0x800, leads)
    requires leads(0x100, 8)
    ensures leads(0x565, 32) && leads(0x216, 64) && leads(0x32C, 256) && leads(0xFB, 512) && leads(0x5E, 1024)
  {
    assert Times(12, 0x107, 0x800, 0x100, 8, 0x100, 8, 0x177);
    assert Times(12, 0x107, 0x800, 0x177, 16, 0x177, 16, 0x565);
    assert Times(12, 0x107, 0x800, 0x565, 32, 0x565, 32, 0x216);
    assert Times(12, 0x107, 0x800, 0x216, 64, 0x216, 64, 0x4C8);
    assert Times(12, 0x107, 0x800, 0x4C8, 128, 0x4C8, 128, 0x32C);
    assert Times(12, 0x107, 0x800, 0x32C, 256, 0x32C, 256, 0xFB);
    assert Times(12, 0x107, 0x800, 0xFB, 512, 0xFB, 512, 0x5E);
  }

  lemma {:induction false} Chain12Part2(leads: Leading)
    requires Closed(12, 0x107, 0x800, leads)
    requires leads(0x4, 2) && leads(0x10, 4) && leads(0x100, 8) && leads(0x200, 9) && leads(0x565, 32)
    requires leads(0x216, 64) && leads(0x32C, 256) && leads(0x5E, 1024)
    ensures leads(0x36E, 68) && leads(0x258, 273) && leads(0x2C2, 307) && leads(0x2, 4096)
  {
    assert Times(12, 0x107, 0x800, 0x5E, 1024, 0x5E, 1024, 0x53);
    assert Times(12, 0x107, 0x800, 0x53, 2048, 0x53, 2048, 0x2);
    assert Times(12, 0x107, 0x800, 0x100, 8, 0x200, 9, 0x2EE);
    assert Times(12, 0x107, 0x800, 0x32C, 256, 0x2EE, 17, 0x258);
    assert Times(12, 0x107, 0x800, 0x565, 32, 0x4, 2, 0x493);
    assert Times(12, 0x107, 0x800, 0x258, 273, 0x493, 34, 0x2C2);
    assert Times(12, 0x107, 0x800, 0x216, 64, 0x10, 4, 0x36E);
  }

  lemma {:induction false} Chain12Part3(leads: Leading)
    requires Closed(12, 0x107, 0x800, leads)
    requires leads(0x100, 8) && leads(0x200, 9) && leads(0x216, 64) && leads(0x36E, 68) && leads(0x258, 273)
    requires leads(0x2C2, 307) && leads(0xFB, 512) && leads(0x5E, 1024)
    ensures leads(0xCCA, 315) && leads(0x60B, 585) && leads(0xEF0, 819) && leads(0x7C3, 1365)
  {
    assert Times(12, 0x107, 0x800, 0x2C2, 307, 0x100, 8, 0xCCA);
    assert Times(12, 0x107, 0x800, 0x216, 64, 0x200, 9, 0xBD2);
    assert Times(12, 0x107, 0x800, 0x258, 273, 0x36E, 68, 0xF2C);
    assert Times(12, 0x107, 0x800, 0xFB, 512, 0xBD2, 73, 0x60B);
    assert Times(12, 0x107, 0x800, 0xFB, 512, 0x2C2, 307, 0xEF0);
    assert Times(12, 0x107, 0x800, 0x5E, 1024, 0xF2C, 341, 0x7C3);
  }

  lemma {:induction false} Chain12(leads: Leading)
    requires Closed(12, 0x107, 0x800, leads)
    requires leads(0x4, 2) && leads(0x10, 4) && leads(0x100, 8) && leads(0x200, 9)
    ensures leads(0x2, 4096) && leads(0xCCA, 315) && leads(0x60B, 585) && leads(0xEF0, 819) && leads(0x7C3, 1365)
  {
    Chain12Part1(leads);
    Chain12Part2(leads);
    Chain12Part3(leads);
  }

  lemma {:induction false} Ends12()
    ensures var leads := LeadsOf(12);
            && leads(0xCCA, 315) && leads(0x60B, 585) && leads(0xEF0, 819) && leads(0x7C3, 1365)
            && leads(0x2, 4096)
  {
    LowFour(12, 12, 11, 10, 4, 0x106);
    assert polynomials[12] == [12, 11, 10, 4];
    LeadsClosed(12, 0x107, 0x800);
    LeadsPower(12, 0x4, 2);
    LeadsPower(12, 0x10, 4);
    LeadsPower(12, 0x100, 8);
    LeadsPower(12, 0x200, 9);
    Chain12(LeadsOf(12));
  }

  lemma {:induction false} NotBack12From2()
    ensures NoneReturns(12, [819, 585, 315])
  {
    Ends12();
    NotBackEither(12, 0xCCA, 315, 0, []);
    assert [315] + [] == [315];
    NotBackEither(12, 0x60B, 585, 1, [315]);
    assert [585] + [315] == [585, 315];
    NotBackEither(12, 0xEF0, 819, 0, [585, 315]);
    assert [819] + [585, 315] == [819, 585, 315];
  }

  lemma {:induction false} Back12()
    ensures Returns(12, 4095) && NoneReturns(12, [1365, 1365, 819, 585, 315])
  {
    Ends12();
    NotBack12From2();
    Closes(12, 4096);
    NotBackEither(12, 0x7C3, 1365, 1, [819, 585, 315]);
    assert [1365] + [819, 585, 315] == [1365, 819, 585, 315];
    NotBackEither(12, 0x7C3, 1365, 1, [1365, 819, 585, 315]);
    assert [1365] + [1365, 819, 585, 315] == [1365, 1365, 819, 585, 315];
  }

  lemma {:induction false} Factors12()
    ensures Factored(4095, [3, 3, 5, 7, 13], [1365, 1365, 819, 585, 315])
  {
    ProductIs([13], 13, [], 1);
    ProductIs([7, 13], 7, [13], 13);
    ProductIs([5, 7, 13], 5, [7, 13], 91);
    ProductIs([3, 5, 7, 13], 3, [5, 7, 13], 455);
    ProductIs([3, 3, 5, 7, 13], 3, [3, 5, 7, 13], 1365);
    PrimesTo20();
  }

  lemma {:induction false} Length12()
    ensures Maximal(12)
  {
    Powers();
    Factors12();
    Back12();
    MaximalExactly(12, [3, 3, 5, 7, 13], [1365, 1365, 819, 585, 315]);
  }

  // ---------------------------------------------------------------------------
  // Length 13
  // ---------------------------------------------------------------------------

  lemma {:induction false} Chain13Part1(leads: Leading)
    requires Closed(13, 0x27, 0x1000, leads)
    requires leads(0x100, 8)
    ensures leads(0x120C, 256)
  {
    assert Times(13, 0x27, 0x1000, 0x100, 8, 0x100, 8, 0x138);
    assert Times(13, 0x27, 0x1000, 0x138, 16, 0x138, 16, 0x478);
    assert Times(13, 0x27, 0x1000, 0x478, 32, 0x478, 32, 0x6C0);
    assert Times(13, 0x27, 0x1000, 0x6C0, 64, 0x6C0, 64, 0x72E);
    assert Times(13, 0x27, 0x1000, 0x72E, 128, 0x72E, 128, 0x120C);
  }

  lemma {:induction false} Chain13Part2(leads: Leading)
    requires Closed(13, 0x27, 0x1000, leads)
    requires leads(0x120C, 256)
    ensures leads(0x2, 8192)
  {
    assert Times(13, 0x27, 0x1000, 0x120C, 256, 0x120C, 256, 0x1DAF);
    assert Times(13, 0x27, 0x1000, 0x1DAF, 512, 0x1DAF, 512, 0x1F2);
    assert Times(13, 0x27, 0x1000, 0x1F2, 1024, 0x1F2, 1024, 0x1472);
    assert Times(13, 0x27, 0x1000, 0x1472, 2048, 0x1472, 2048, 0x1F9B);
    assert Times(13, 0x27, 0x1000, 0x1F9B, 4096, 0x1F9B, 4096, 0x2);
  }

  lemma {:induction false} Chain13(leads: Leading)
    requires Closed(13, 0x27, 0x1000, leads)
    requires leads(0x2, 1) && leads(0x100, 8)
    ensures leads(0x2, 8192)
  {
    Chain13Part1(leads);
    Chain13Part2(leads);
  }

  lemma {:induction false} Ends13()
    ensures var leads := LeadsOf(13);
            leads(0x2, 1) && leads(0x2, 8192)
  {
    LowFour(13, 13, 12, 11, 8, 0x26);
    assert polynomials[13] == [13, 12, 11, 8];
    LeadsClosed(13, 0x27, 0x1000);
    LeadsPower(13, 0x2, 1);
    LeadsPower(13, 0x100, 8);
    Chain13(LeadsOf(13));
  }

  lemma {:induction false} Back13()
    ensures Returns(13, 8191) && NoneReturns(13, [1])
  {
    Ends13();
    Closes(13, 8192);
    NotBackEither(13, 0x2, 1, 0, []);
    assert [1] + [] == [1];
  }

  lemma {:induction false} Length13()
    ensures Maximal(13)
  {
    Powers();
    ProductIs([8191], 8191, [], 1);
    Prime8191();
    Back13();
    MaximalExactly(13, [8191], [1]);
  }

  // ---------------------------------------------------------------------------
  // Length 14
  // ---------------------------------------------------------------------------

  lemma {:induction false} Chain14Part1(leads: Leading)
    requires Closed(14, 0x1007, 0x2000, leads)
    requires leads(0x100, 8)
    ensures leads(0xBEE, 32) && leads(0x1288, 64) && leads(0xA87, 128) && leads(0x16D2, 256) && leads(0x1280, 1024)
  {
    assert Times(14, 0x1007, 0x2000, 0x100, 8, 0x100, 8, 0x101B);
    assert Times(14, 0x1007, 0x2000, 0x101B, 16, 0x101B, 16, 0xBEE);
    assert Times(14, 0x1007, 0x2000, 0xBEE, 32, 0xBEE, 32, 0x1288);
    assert Times(14, 0x1007, 0x2000, 0x1288, 64, 0x1288, 64, 0xA87);
    assert Times(14, 0x1007, 0x2000, 0xA87, 128, 0xA87, 128, 0x16D2);
    assert Times(14, 0x1007, 0x2000, 0x16D2, 256, 0x16D2, 256, 0xA68);
    assert Times(14, 0x1007, 0x2000, 0xA68, 512, 0xA68, 512, 0x1280);
  }

  lemma {:induction false} Chain14Part2(leads: Leading)
    requires Closed(14, 0x1007, 0x2000, leads)
    requires leads(0x400, 10) && leads(0x800, 11) && leads(0x1288, 64) && leads(0x16D2, 256) && leads(0x1280, 1024)
    ensures leads(0x327D, 341) && leads(0x6D2, 4096) && leads(0x2, 16384)
  {
    assert Times(14, 0x1007, 0x2000, 0x1280, 1024, 0x1280, 1024, 0xAC7);
    assert Times(14, 0x1007, 0x2000, 0xAC7, 2048, 0xAC7, 2048, 0x6D2);
    assert Times(14, 0x1007, 0x2000, 0x6D2, 4096, 0x6D2, 4096, 0xC3);
    assert Times(14, 0x1007, 0x2000, 0xC3, 8192, 0xC3, 8192, 0x2);
    assert Times(14, 0x1007, 0x2000, 0x400, 10, 0x800, 11, 0x2356);
    assert Times(14, 0x1007, 0x2000, 0x1288, 64, 0x2356, 21, 0x3D31);
    assert Times(14, 0x1007, 0x2000, 0x16D2, 256, 0x3D31, 85, 0x327D);
  }

  lemma {:induction false} Chain14Part3(leads: Leading)
    requires Closed(14, 0x1007, 0x2000, leads)
    requires leads(0x2, 1) && leads(0x100, 8) && leads(0xBEE, 32) && leads(0xA87, 128) && leads(0x327D, 341)
    requires leads(0x1280, 1024) && leads(0x6D2, 4096)
    ensures leads(0x150E, 129) && leads(0x223B, 381) && leads(0x34FE, 5461)
  {
    assert Times(14, 0x1007, 0x2000, 0xA87, 128, 0x2, 1, 0x150E);
    assert Times(14, 0x1007, 0x2000, 0xBEE, 32, 0x100, 8, 0xEF2);
    assert Times(14, 0x1007, 0x2000, 0x327D, 341, 0xEF2, 40, 0x223B);
    assert Times(14, 0x1007, 0x2000, 0x1280, 1024, 0x327D, 341, 0xC9D);
    assert Times(14, 0x1007, 0x2000, 0x6D2, 4096, 0xC9D, 1365, 0x34FE);
  }

  lemma {:induction false} Chain14(leads: Leading)
    requires Closed(14, 0x1007, 0x2000, leads)
    requires leads(0x2, 1) && leads(0x100, 8) && leads(0x400, 10) && leads(0x800, 11)
    ensures leads(0x2, 16384) && leads(0x150E, 129) && leads(0x223B, 381) && leads(0x34FE, 5461)
  {
    Chain14Part1(leads);
    Chain14Part2(leads);
    Chain14Part3(leads);
  }

  lemma {:induction false} Ends14()
    ensures var leads := LeadsOf(14);
            leads(0x150E, 129) && leads(0x223B, 381) && leads(0x34FE, 5461) && leads(0x2, 16384)
  {
    LowFour(14, 14, 13, 12, 2, 0x1006);
    assert polynomials[14] == [14, 13, 12, 2];
    LeadsClosed(14, 0x1007, 0x2000);
    LeadsPower(14, 0x2, 1);
    LeadsPower(14, 0x100, 8);
    LeadsPower(14, 0x400, 10);
    LeadsPower(14, 0x800, 11);
    Chain14(LeadsOf(14));
  }

  lemma {:induction false} Back14()
    ensures Returns(14, 16383) && NoneReturns(14, [5461, 381, 129])
  {
    Ends14();
    Closes(14, 16384);
    NotBackEither(14, 0x150E, 129, 0, []);
    assert [129] + [] == [129];
    NotBackEither(14, 0x223B, 381, 1, [129]);
    assert [381] + [129] == [381, 129];
    NotBackEither(14, 0x34FE, 5461, 0, [381, 129]);
    assert [5461] + [381, 129] == [5461, 381, 129];
  }

  lemma {:induction false} Factors14()
    ensures Factored(16383, [3, 43, 127], [5461, 381, 129])
  {
    ProductIs([127], 127, [], 1);
    ProductIs([43, 127], 43, [127], 127);
    ProductIs([3, 43, 127], 3, [43, 127], 5461);
    PrimesTo100();
    PrimesTo20();
    PrimesTo400();
  }

  lemma {:induction false} Length14()
    ensures Maximal(14)
  {
    Powers();
    Factors14();
    Back14();
    MaximalExactly(14, [3, 43, 127], [5461, 381, 129]);
  }

  // ---------------------------------------------------------------------------
  // Length 15
  // ---------------------------------------------------------------------------

  lemma {:induction false} Chain15Part1(leads: Leading)
    requires Closed(15, 0x3, 0x4000, leads)
    requires leads(0x100, 8)
    ensures leads(0x6, 16) && leads(0x14, 32) && leads(0x110, 64) && leads(0x106, 128) && leads(0x104, 512)
    ensures leads(0x16, 1024)
  {
    assert Times(15, 0x3, 0x4000, 0x100, 8, 0x100, 8, 0x6);
    assert Times(15, 0x3, 0x4000, 0x6, 16, 0x6, 16, 0x14);
    assert Times(15, 0x3, 0x4000, 0x14, 32, 0x14, 32, 0x110);
    assert Times(15, 0x3, 0x4000, 0x110, 64, 0x110, 64, 0x106);
    assert Times(15, 0x3, 0x4000, 0x106, 128, 0x106, 128, 0x12);
    assert Times(15, 0x3, 0x4000, 0x12, 256, 0x12, 256, 0x104);
    assert Times(15, 0x3, 0x4000, 0x104, 512, 0x104, 512, 0x16);
  }

  lemma {:induction false} Chain15Part2(leads: Leading)
    requires Closed(15, 0x3, 0x4000, leads)
    requires leads(0x2, 1) && leads(0x200, 9) && leads(0x14, 32) && leads(0x110, 64) && leads(0x16, 1024)
    ensures leads(0x28, 33) && leads(0x200C, 73) && leads(0x116, 4096) && leads(0x2, 32768)
  {
    assert Times(15, 0x3, 0x4000, 0x16, 1024, 0x16, 1024, 0x114);
    assert Times(15, 0x3, 0x4000, 0x114, 2048, 0x114, 2048, 0x116);
    assert Times(15, 0x3, 0x4000, 0x116, 4096, 0x116, 4096, 0x112);
    assert Times(15, 0x3, 0x4000, 0x112, 8192, 0x112, 8192, 0x102);
    assert Times(15, 0x3, 0x4000, 0x102, 16384, 0x102, 16384, 0x2);
    assert Times(15, 0x3, 0x4000, 0x110, 64, 0x200, 9, 0x200C);
    assert Times(15, 0x3, 0x4000, 0x14, 32, 0x2, 1, 0x28);
  }

  lemma {:induction false} Chain15Part3(leads: Leading)
    requires Closed(15, 0x3, 0x4000, leads)
    requires leads(0x6, 16) && leads(0x28, 33) && leads(0x200C, 73) && leads(0x106, 128) && leads(0x104, 512)
    requires leads(0x16, 1024) && leads(0x116, 4096)
    ensures leads(0x2A7F, 217) && leads(0x270, 1057) && leads(0x1632, 4681)
  {
    assert Times(15, 0x3, 0x4000, 0x200C, 73, 0x6, 16, 0x402B);
    assert Times(15, 0x3, 0x4000, 0x16, 1024, 0x28, 33, 0x270);
    assert Times(15, 0x3, 0x4000, 0x104, 512, 0x200C, 73, 0xCF3);
    assert Times(15, 0x3, 0x4000, 0x106, 128, 0x402B, 89, 0x2A7F);
    assert Times(15, 0x3, 0x4000, 0x116, 4096, 0xCF3, 585, 0x1632);
  }

  lemma {:induction false} Chain15(leads: Leading)
    requires Closed(15, 0x3, 0x4000, leads)
    requires leads(0x2, 1) && leads(0x100, 8) && leads(0x200, 9)
    ensures leads(0x2, 32768) && leads(0x2A7F, 217) && leads(0x270, 1057) && leads(0x1632, 4681)
  {
    Chain15Part1(leads);
    Chain15Part2(leads);
    Chain15Part3(leads);
  }

  lemma {:induction false} Ends15()
    ensures var leads := LeadsOf(15);
            leads(0x2A7F, 217) && leads(0x270, 1057) && leads(0x1632, 4681) && leads(0x2, 32768)
  {
    LowTwo(15, 15, 14, 0x2);
    assert polynomials[15] == [15, 14];
    LeadsClosed(15, 0x3, 0x4000);
    LeadsPower(15, 0x2, 1);
    LeadsPower(15, 0x100, 8);
    LeadsPower(15, 0x200, 9);
    Chain15(LeadsOf(15));
  }

  lemma {:induction false} Back15()
    ensures Returns(15, 32767) && NoneReturns(15, [4681, 1057, 217])
  {
    Ends15();
    Closes(15, 32768);
    NotBackEither(15, 0x2A7F, 217, 1, []);
    assert [217] + [] == [217];
    NotBackEither(15, 0x270, 1057, 0, [217]);
    assert [1057] + [217] == [1057, 217];
    NotBackEither(15, 0x1632, 4681, 0, [1057, 217]);
    assert [4681] + [1057, 217] == [4681, 1057, 217];
  }

  lemma {:induction false} Factors15()
    ensures Factored(32767, [7, 31, 151], [4681, 1057, 217])
  {
    ProductIs([151], 151, [], 1);
    ProductIs([31, 151], 31, [151], 151);
    ProductIs([7, 31, 151], 7, [31, 151], 4681);
    PrimesTo100();
    PrimesTo20();
    PrimesTo400();
  }

  lemma {:induction false} Length15()
    ensures Maximal(15)
  {
    Powers();
    Factors15();
    Back15();
    MaximalExactly(15, [7, 31, 151], [4681, 1057, 217]);
  }

  // ---------------------------------------------------------------------------
  // Length 16
  // ---------------------------------------------------------------------------

  lemma {:induction false} Chain16Part1(leads: Leading)
    requires Closed(16, 0x100B, 0x8000, leads)
    requires leads(0x100, 8)
    ensures leads(0x100B, 16) && leads(0x1BFE, 32) && leads(0x5C24, 64) && leads(0xE647, 128) && leads(0xB2F, 256)
    ensures leads(0x169E, 512) && leads(0xA78, 1024) && leads(0x1780, 2048)
  {
    assert Times(16, 0x100B, 0x8000, 0x100, 8, 0x100, 8, 0x100B);
    assert Times(16, 0x100B, 0x8000, 0x100B, 16, 0x100B, 16, 0x1BFE);
    assert Times(16, 0x100B, 0x8000, 0x1BFE, 32, 0x1BFE, 32, 0x5C24);
    assert Times(16, 0x100B, 0x8000, 0x5C24, 64, 0x5C24, 64, 0xE647);
    assert Times(16, 0x100B, 0x8000, 0xE647, 128, 0xE647, 128, 0xB2F);
    assert Times(16, 0x100B, 0x8000, 0xB2F, 256, 0xB2F, 256, 0x169E);
    assert Times(16, 0x100B, 0x8000, 0x169E, 512, 0x169E, 512, 0xA78);
    assert Times(16, 0x100B, 0x8000, 0xA78, 1024, 0xA78, 1024, 0x1780);
  }

  lemma {:induction false} Chain16Part2(leads: Leading)
    requires Closed(16, 0x100B, 0x8000, leads)
    requires leads(0x8, 3) && leads(0x100B, 16) && leads(0x1BFE, 32) && leads(0xB2F, 256) && leads(0x169E, 512)
    requires leads(0x1780, 2048)
    ensures leads(0x4C35, 48) && leads(0x41BE, 51) && leads(0x14D, 768) && leads(0x1B27, 4096) && leads(0xD65, 8192)
    ensures leads(0x564D, 16384) && leads(0x2, 65536)
  {
    assert Times(16, 0x100B, 0x8000, 0x1780, 2048, 0x1780, 2048, 0x1B27);
    assert Times(16, 0x100B, 0x8000, 0x1B27, 4096, 0x1B27, 4096, 0xD65);
    assert Times(16, 0x100B, 0x8000, 0xD65, 8192, 0xD65, 8192, 0x564D);
    assert Times(16, 0x100B, 0x8000, 0x564D, 16384, 0x564D, 16384, 0xF0C6);
    assert Times(16, 0x100B, 0x8000, 0xF0C6, 32768, 0xF0C6, 32768, 0x2);
    assert Times(16, 0x100B, 0x8000, 0x1BFE, 32, 0x100B, 16, 0x4C35);
    assert Times(16, 0x100B, 0x8000, 0x169E, 512, 0xB2F, 256, 0x14D);
    assert Times(16, 0x100B, 0x8000, 0x4C35, 48, 0x8, 3, 0x41BE);
  }

  lemma {:induction false} Chain16Part3(leads: Leading)
    requires Closed(16, 0x100B, 0x8000, leads)
    requires leads(0x400, 10) && leads(0x800, 11) && leads(0x8000, 15) && leads(0x4C35, 48) && leads(0x41BE, 51)
    requires leads(0x5C24, 64) && leads(0xE647, 128) && leads(0xB2F, 256) && leads(0x14D, 768)
    ensures leads(0x8D92, 255) && leads(0x3308, 341) && leads(0x4494, 783) && leads(0xE977, 819)
  {
    assert Times(16, 0x100B, 0x8000, 0x400, 10, 0x800, 11, 0x2176);
    assert Times(16, 0x100B, 0x8000, 0x4C35, 48, 0x8000, 15, 0x2E12);
    assert Times(16, 0x100B, 0x8000, 0x14D, 768, 0x8000, 15, 0x4494);
    assert Times(16, 0x100B, 0x8000, 0x5C24, 64, 0x2176, 21, 0x1539);
    assert Times(16, 0x100B, 0x8000, 0x14D, 768, 0x41BE, 51, 0xE977);
    assert Times(16, 0x100B, 0x8000, 0x5C24, 64, 0x2E12, 63, 0xFB26);
    assert Times(16, 0x100B, 0x8000, 0xB2F, 256, 0x1539, 85, 0x3308);
    assert Times(16, 0x100B, 0x8000, 0xE647, 128, 0xFB26, 127, 0x8D92);
  }

  lemma {:induction false} Chain16Part4(leads: Leading)
    requires Closed(16, 0x100B, 0x8000, leads)
    requires leads(0x3308, 341) && leads(0x4494, 783) && leads(0xE977, 819) && leads(0xA78, 1024)
    requires leads(0x1780, 2048) && leads(0x1B27, 4096) && leads(0xD65, 8192) && leads(0x564D, 16384)
    ensures leads(0x4D78, 3855) && leads(0x1CE8, 13107) && leads(0x15E, 21845)
  {
    assert Times(16, 0x100B, 0x8000, 0xA78, 1024, 0x3308, 341, 0xD6B8);
    assert Times(16, 0x100B, 0x8000, 0xA78, 1024, 0x4494, 783, 0xF115);
    assert Times(16, 0x100B, 0x8000, 0x1B27, 4096, 0xE977, 819, 0x4ADC);
    assert Times(16, 0x100B, 0x8000, 0x1B27, 4096, 0xD6B8, 1365, 0xF0EC);
    assert Times(16, 0x100B, 0x8000, 0x1780, 2048, 0xF115, 1807, 0x4D78);
    assert Times(16, 0x100B, 0x8000, 0xD65, 8192, 0x4ADC, 4915, 0x1CE8);
    assert Times(16, 0x100B, 0x8000, 0x564D, 16384, 0xF0EC, 5461, 0x15E);
  }

  lemma {:induction false} Chain16(leads: Leading)
    requires Closed(16, 0x100B, 0x8000, leads)
    requires leads(0x8, 3) && leads(0x100, 8) && leads(0x400, 10) && leads(0x800, 11) && leads(0x8000, 15)
    ensures leads(0x2, 65536) && leads(0x8D92, 255) && leads(0x4D78, 3855) && leads(0x1CE8, 13107)
    ensures leads(0x15E, 21845)
  {
    Chain16Part1(leads);
    Chain16Part2(leads);
    Chain16Part3(leads);
    Chain16Part4(leads);
  }

  lemma {:induction false} Ends16()
    ensures var leads := LeadsOf(16);
            && leads(0x8D92, 255) && leads(0x4D78, 3855) && leads(0x1CE8, 13107) && leads(0x15E, 21845)
            && leads(0x2, 65536)
  {
    LowFour(16, 16, 15, 13, 4, 0x100A);
    assert polynomials[16] == [16, 15, 13, 4];
    LeadsClosed(16, 0x100B, 0x8000);
    LeadsPower(16, 0x8, 3);
    LeadsPower(16, 0x100, 8);
    LeadsPower(16, 0x400, 10);
    LeadsPower(16, 0x800, 11);
    LeadsPower(16, 0x8000, 15);
    Chain16(LeadsOf(16));
  }

  lemma {:induction false} Back16()
    ensures Returns(16, 65535) && NoneReturns(16, [21845, 13107, 3855, 255])
  {
    Ends16();
    Closes(16, 65536);
    NotBackEither(16, 0x8D92, 255, 0, []);
    assert [255] + [] == [255];
    NotBackEither(16, 0x4D78, 3855, 0, [255]);
    assert [3855] + [255] == [3855, 255];
    NotBackEither(16, 0x1CE8, 13107, 0, [3855, 255]);
    assert [13107] + [3855, 255] == [13107, 3855, 255];
    NotBackEither(16, 0x15E, 21845, 0, [13107, 3855, 255]);
    assert [21845] + [13107, 3855, 255] == [21845, 13107, 3855, 255];
  }

  lemma {:induction false} Factors16()
    ensures Factored(65535, [3, 5, 17, 257], [21845, 13107, 3855, 255])
  {
    ProductIs([257], 257, [], 1);
    ProductIs([17, 257], 17, [257], 257);
    ProductIs([5, 17, 257], 5, [17, 257], 4369);
    ProductIs([3, 5, 17, 257], 3, [5, 17, 257], 21845);
    PrimesTo20();
    PrimesTo400();
  }

  lemma {:induction false} Length16()
    ensures Maximal(16)
  {
    Powers();
    Factors16();
    Back16();
    MaximalExactly(16, [3, 5, 17, 257], [21845, 13107, 3855, 255]);
  }
}
