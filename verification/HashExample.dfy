/** The example of one block that FIPS 180-4 is published with: the digest of "abc", round by round. */
module HashExample {
  import opened Aes
  import opened Sha256

  // ---- the message schedule ----

  /** Eight words of the schedule of block `b`, from word `t` on. */
  predicate Words(b: Chunk, t: nat, w0: word, w1: word, w2: word, w3: word, w4: word, w5: word, w6: word, w7: word) {
    && Schedule(b, t) == w0 && Schedule(b, t + 1) == w1 && Schedule(b, t + 2) == w2 && Schedule(b, t + 3) == w3
    && Schedule(b, t + 4) == w4 && Schedule(b, t + 5) == w5 && Schedule(b, t + 6) == w6 && Schedule(b, t + 7) == w7
  }

  /** Word `t` from the words 2, 7, 15 and 16 before it. */
  lemma Next(b: Chunk, t: nat, w2: word, w7: word, w15: word, w16: word, w: word)
    requires t >= 16 && SumOf(Sigma1(w2), w7, Sigma0(w15), w16) == w
    requires Schedule(b, t - 2) == w2 && Schedule(b, t - 7) == w7
    requires Schedule(b, t - 15) == w15 && Schedule(b, t - 16) == w16
    ensures Schedule(b, t) == w
  {
    hide SumOf, Sigma0, Sigma1;
  }

  lemma Words16(b: Chunk, t: nat)
    requires t >= 16
    requires Words(b, t - 16, 0x61626380, 0x00000000, 0x00000000, 0x00000000, 0x00000000, 0x00000000, 0x00000000,
             0x00000000)
    requires Words(b, t - 8, 0x00000000, 0x00000000, 0x00000000, 0x00000000, 0x00000000, 0x00000000, 0x00000000,
             0x00000018)
    ensures Words(b, t, 0x61626380, 0x000f0000, 0x7da86405, 0x600003c6, 0x3e9d7b78, 0x0183fc00, 0x12dcbfdb, 0xe2e2c38e)
  {
    hide Schedule;
    Next(b, t, 0x00000000, 0x00000000, 0x00000000, 0x61626380, 0x61626380);
    Next(b, t + 1, 0x00000018, 0x00000000, 0x00000000, 0x00000000, 0x000f0000);
    Next(b, t + 2, 0x61626380, 0x00000000, 0x00000000, 0x00000000, 0x7da86405);
    Next(b, t + 3, 0x000f0000, 0x00000000, 0x00000000, 0x00000000, 0x600003c6);
    Next(b, t + 4, 0x7da86405, 0x00000000, 0x00000000, 0x00000000, 0x3e9d7b78);
    Next(b, t + 5, 0x600003c6, 0x00000000, 0x00000000, 0x00000000, 0x0183fc00);
    Next(b, t + 6, 0x3e9d7b78, 0x00000018, 0x00000000, 0x00000000, 0x12dcbfdb);
    Next(b, t + 7, 0x0183fc00, 0x61626380, 0x00000000, 0x00000000, 0xe2e2c38e);
  }

  lemma Words24(b: Chunk, t: nat)
    requires t >= 16
    requires Words(b, t - 16, 0x00000000, 0x00000000, 0x00000000, 0x00000000, 0x00000000, 0x00000000, 0x00000000,
             0x00000018)
    requires Words(b, t - 8, 0x61626380, 0x000f0000, 0x7da86405, 0x600003c6, 0x3e9d7b78, 0x0183fc00, 0x12dcbfdb,
             0xe2e2c38e)
    ensures Words(b, t, 0xc8215c1a, 0xb73679a2, 0xe5bc3909, 0x32663c5b, 0x9d209d67, 0xec8726cb, 0x702138a4, 0xd3b7973b)
  {
    hide Schedule;
    Next(b, t, 0x12dcbfdb, 0x000f0000, 0x00000000, 0x00000000, 0xc8215c1a);
    Next(b, t + 1, 0xe2e2c38e, 0x7da86405, 0x00000000, 0x00000000, 0xb73679a2);
    Next(b, t + 2, 0xc8215c1a, 0x600003c6, 0x00000000, 0x00000000, 0xe5bc3909);
    Next(b, t + 3, 0xb73679a2, 0x3e9d7b78, 0x00000000, 0x00000000, 0x32663c5b);
    Next(b, t + 4, 0xe5bc3909, 0x0183fc00, 0x00000000, 0x00000000, 0x9d209d67);
    Next(b, t + 5, 0x32663c5b, 0x12dcbfdb, 0x00000000, 0x00000000, 0xec8726cb);
    Next(b, t + 6, 0x9d209d67, 0xe2e2c38e, 0x00000018, 0x00000000, 0x702138a4);
    Next(b, t + 7, 0xec8726cb, 0xc8215c1a, 0x61626380, 0x00000018, 0xd3b7973b);
  }

  lemma Words32(b: Chunk, t: nat)
    requires t >= 16
    requires Words(b, t - 16, 0x61626380, 0x000f0000, 0x7da86405, 0x600003c6, 0x3e9d7b78, 0x0183fc00, 0x12dcbfdb,
             0xe2e2c38e)
    requires Words(b, t - 8, 0xc8215c1a, 0xb73679a2, 0xe5bc3909, 0x32663c5b, 0x9d209d67, 0xec8726cb, 0x702138a4,
             0xd3b7973b)
    ensures Words(b, t, 0x93f5997f, 0x3b68ba73, 0xaff4ffc1, 0xf10a5c62, 0x0a8b3996, 0x72af830a, 0x9409e33e, 0x24641522)
  {
    hide Schedule;
    Next(b, t, 0x702138a4, 0xb73679a2, 0x000f0000, 0x61626380, 0x93f5997f);
    Next(b, t + 1, 0xd3b7973b, 0xe5bc3909, 0x7da86405, 0x000f0000, 0x3b68ba73);
    Next(b, t + 2, 0x93f5997f, 0x32663c5b, 0x600003c6, 0x7da86405, 0xaff4ffc1);
    Next(b, t + 3, 0x3b68ba73, 0x9d209d67, 0x3e9d7b78, 0x600003c6, 0xf10a5c62);
    Next(b, t + 4, 0xaff4ffc1, 0xec8726cb, 0x0183fc00, 0x3e9d7b78, 0x0a8b3996);
    Next(b, t + 5, 0xf10a5c62, 0x702138a4, 0x12dcbfdb, 0x0183fc00, 0x72af830a);
    Next(b, t + 6, 0x0a8b3996, 0xd3b7973b, 0xe2e2c38e, 0x12dcbfdb, 0x9409e33e);
    Next(b, t + 7, 0x72af830a, 0x93f5997f, 0xc8215c1a, 0xe2e2c38e, 0x24641522);
  }

  lemma Words40(b: Chunk, t: nat)
    requires t >= 16
    requires Words(b, t - 16, 0xc8215c1a, 0xb73679a2, 0xe5bc3909, 0x32663c5b, 0x9d209d67, 0xec8726cb, 0x702138a4,
             0xd3b7973b)
    requires Words(b, t - 8, 0x93f5997f, 0x3b68ba73, 0xaff4ffc1, 0xf10a5c62, 0x0a8b3996, 0x72af830a, 0x9409e33e,
             0x24641522)
    ensures Words(b, t, 0x9f47bf94, 0xf0a64f5a, 0x3e246a79, 0x27333ba3, 0x0c4763f2, 0x840abf27, 0x7a290d5d, 0x065c43da)
  {
    hide Schedule;
    Next(b, t, 0x9409e33e, 0x3b68ba73, 0xb73679a2, 0xc8215c1a, 0x9f47bf94);
    Next(b, t + 1, 0x24641522, 0xaff4ffc1, 0xe5bc3909, 0xb73679a2, 0xf0a64f5a);
    Next(b, t + 2, 0x9f47bf94, 0xf10a5c62, 0x32663c5b, 0xe5bc3909, 0x3e246a79);
    Next(b, t + 3, 0xf0a64f5a, 0x0a8b3996, 0x9d209d67, 0x32663c5b, 0x27333ba3);
    Next(b, t + 4, 0x3e246a79, 0x72af830a, 0xec8726cb, 0x9d209d67, 0x0c4763f2);
    Next(b, t + 5, 0x27333ba3, 0x9409e33e, 0x702138a4, 0xec8726cb, 0x840abf27);
    Next(b, t + 6, 0x0c4763f2, 0x24641522, 0xd3b7973b, 0x702138a4, 0x7a290d5d);
    Next(b, t + 7, 0x840abf27, 0x9f47bf94, 0x93f5997f, 0xd3b7973b, 0x065c43da);
  }

  lemma Words48(b: Chunk, t: nat)
    requires t >= 16
    requires Words(b, t - 16, 0x93f5997f, 0x3b68ba73, 0xaff4ffc1, 0xf10a5c62, 0x0a8b3996, 0x72af830a, 0x9409e33e,
             0x24641522)
    requires Words(b, t - 8, 0x9f47bf94, 0xf0a64f5a, 0x3e246a79, 0x27333ba3, 0x0c4763f2, 0x840abf27, 0x7a290d5d,
             0x065c43da)
    ensures Words(b, t, 0xfb3e89cb, 0xcc7617db, 0xb9e66c34, 0xa9993667, 0x84badedd, 0xc21462bc, 0x1487472c, 0xb20f7a99)
  {
    hide Schedule;
    Next(b, t, 0x7a290d5d, 0xf0a64f5a, 0x3b68ba73, 0x93f5997f, 0xfb3e89cb);
    Next(b, t + 1, 0x065c43da, 0x3e246a79, 0xaff4ffc1, 0x3b68ba73, 0xcc7617db);
    Next(b, t + 2, 0xfb3e89cb, 0x27333ba3, 0xf10a5c62, 0xaff4ffc1, 0xb9e66c34);
    Next(b, t + 3, 0xcc7617db, 0x0c4763f2, 0x0a8b3996, 0xf10a5c62, 0xa9993667);
    Next(b, t + 4, 0xb9e66c34, 0x840abf27, 0x72af830a, 0x0a8b3996, 0x84badedd);
    Next(b, t + 5, 0xa9993667, 0x7a290d5d, 0x9409e33e, 0x72af830a, 0xc21462bc);
    Next(b, t + 6, 0x84badedd, 0x065c43da, 0x24641522, 0x9409e33e, 0x1487472c);
    Next(b, t + 7, 0xc21462bc, 0xfb3e89cb, 0x9f47bf94, 0x24641522, 0xb20f7a99);
  }

  lemma Words56(b: Chunk, t: nat)
    requires t >= 16
    requires Words(b, t - 16, 0x9f47bf94, 0xf0a64f5a, 0x3e246a79, 0x27333ba3, 0x0c4763f2, 0x840abf27, 0x7a290d5d,
             0x065c43da)
    requires Words(b, t - 8, 0xfb3e89cb, 0xcc7617db, 0xb9e66c34, 0xa9993667, 0x84badedd, 0xc21462bc, 0x1487472c,
             0xb20f7a99)
    ensures Words(b, t, 0xef57b9cd, 0xebe6b238, 0x9fe3095e, 0x78bc8d4b, 0xa43fcf15, 0x668b2ff8, 0xeeaba2cc, 0x12b1edeb)
  {
    hide Schedule;
    Next(b, t, 0x1487472c, 0xcc7617db, 0xf0a64f5a, 0x9f47bf94, 0xef57b9cd);
    Next(b, t + 1, 0xb20f7a99, 0xb9e66c34, 0x3e246a79, 0xf0a64f5a, 0xebe6b238);
    Next(b, t + 2, 0xef57b9cd, 0xa9993667, 0x27333ba3, 0x3e246a79, 0x9fe3095e);
    Next(b, t + 3, 0xebe6b238, 0x84badedd, 0x0c4763f2, 0x27333ba3, 0x78bc8d4b);
    Next(b, t + 4, 0x9fe3095e, 0xc21462bc, 0x840abf27, 0x0c4763f2, 0xa43fcf15);
    Next(b, t + 5, 0x78bc8d4b, 0x1487472c, 0x7a290d5d, 0x840abf27, 0x668b2ff8);
    Next(b, t + 6, 0xa43fcf15, 0xb20f7a99, 0x065c43da, 0x7a290d5d, 0xeeaba2cc);
    Next(b, t + 7, 0x668b2ff8, 0xef57b9cd, 0xfb3e89cb, 0x065c43da, 0x12b1edeb);
  }

  // ---- the rounds ----

  /** One round: the new a and e are `x` and `y`. */
  lemma Turn(i: Hash, m: Chunk, n: nat, a: word, b: word, c: word, d: word, e: word, f: word, g: word, h: word, k: word,
      w: word, x: word, y: word)
    requires n < 64 && K(n) == k && Schedule(m, n) == w && Working(i, m, n) == Hash(a, b, c, d, e, f, g, h)
    requires Round(Hash(a, b, c, d, e, f, g, h), k, w) == Hash(x, a, b, c, y, e, f, g)
    ensures Working(i, m, n + 1) == Hash(x, a, b, c, y, e, f, g)
  {
    hide K, Schedule, Round;
  }

  lemma Rounds0(i: Hash, b: Chunk, n: nat)
    requires n == 0
    requires Words(b, n, 0x61626380, 0x00000000, 0x00000000, 0x00000000, 0x00000000, 0x00000000, 0x00000000,
             0x00000000)
    requires Working(i, b, n) == Hash(0x6a09e667, 0xbb67ae85, 0x3c6ef372, 0xa54ff53a,
                                      0x510e527f, 0x9b05688c, 0x1f83d9ab, 0x5be0cd19)
    ensures Working(i, b, n + 8) == Hash(0x85a07b5f, 0xe5030380, 0x2b4209f5, 0x04409a6a,
                                         0x0c657a79, 0x9b27a401, 0x714260ad, 0x43ada245)
  {
    hide Schedule, Working, K;
    Keys0(n);
    Turn(i, b, n, 0x6a09e667, 0xbb67ae85, 0x3c6ef372, 0xa54ff53a, 0x510e527f, 0x9b05688c, 0x1f83d9ab, 0x5be0cd19,
         0x428a2f98, 0x61626380, 0x5d6aebcd, 0xfa2a4622);
    Turn(i, b, n + 1, 0x5d6aebcd, 0x6a09e667, 0xbb67ae85, 0x3c6ef372, 0xfa2a4622, 0x510e527f, 0x9b05688c, 0x1f83d9ab,
         0x71374491, 0x00000000, 0x5a6ad9ad, 0x78ce7989);
    Turn(i, b, n + 2, 0x5a6ad9ad, 0x5d6aebcd, 0x6a09e667, 0xbb67ae85, 0x78ce7989, 0xfa2a4622, 0x510e527f, 0x9b05688c,
         0xb5c0fbcf, 0x00000000, 0xc8c347a7, 0xf92939eb);
    Turn(i, b, n + 3, 0xc8c347a7, 0x5a6ad9ad, 0x5d6aebcd, 0x6a09e667, 0xf92939eb, 0x78ce7989, 0xfa2a4622, 0x510e527f,
         0xe9b5dba5, 0x00000000, 0xd550f666, 0x24e00850);
    Turn(i, b, n + 4, 0xd550f666, 0xc8c347a7, 0x5a6ad9ad, 0x5d6aebcd, 0x24e00850, 0xf92939eb, 0x78ce7989, 0xfa2a4622,
         0x3956c25b, 0x00000000, 0x04409a6a, 0x43ada245);
    Turn(i, b, n + 5, 0x04409a6a, 0xd550f666, 0xc8c347a7, 0x5a6ad9ad, 0x43ada245, 0x24e00850, 0xf92939eb, 0x78ce7989,
         0x59f111f1, 0x00000000, 0x2b4209f5, 0x714260ad);
    Turn(i, b, n + 6, 0x2b4209f5, 0x04409a6a, 0xd550f666, 0xc8c347a7, 0x714260ad, 0x43ada245, 0x24e00850, 0xf92939eb,
         0x923f82a4, 0x00000000, 0xe5030380, 0x9b27a401);
    Turn(i, b, n + 7, 0xe5030380, 0x2b4209f5, 0x04409a6a, 0xd550f666, 0x9b27a401, 0x714260ad, 0x43ada245, 0x24e00850,
         0xab1c5ed5, 0x00000000, 0x85a07b5f, 0x0c657a79);
  }

  lemma Keys0(n: nat)
    requires n == 0
    ensures K(n) == 0x428a2f98 && K(n + 1) == 0x71374491
    ensures K(n + 2) == 0xb5c0fbcf && K(n + 3) == 0xe9b5dba5
    ensures K(n + 4) == 0x3956c25b && K(n + 5) == 0x59f111f1
    ensures K(n + 6) == 0x923f82a4 && K(n + 7) == 0xab1c5ed5
  {
  }

  lemma Rounds8(i: Hash, b: Chunk, n: nat)
    requires n == 8
    requires Words(b, n, 0x00000000, 0x00000000, 0x00000000, 0x00000000, 0x00000000, 0x00000000, 0x00000000,
             0x00000018)
    requires Working(i, b, n) == Hash(0x85a07b5f, 0xe5030380, 0x2b4209f5, 0x04409a6a,
                                      0x0c657a79, 0x9b27a401, 0x714260ad, 0x43ada245)
    ensures Working(i, b, n + 8) == Hash(0xb0fa238e, 0xc0645fde, 0xd932eb16, 0x87912990,
                                         0x07590dcd, 0x0b92f20c, 0x745a48de, 0x1e578218)
  {
    hide Schedule, Working, K;
    Keys8(n);
    Turn(i, b, n, 0x85a07b5f, 0xe5030380, 0x2b4209f5, 0x04409a6a, 0x0c657a79, 0x9b27a401, 0x714260ad, 0x43ada245,
         0xd807aa98, 0x00000000, 0x8e04ecb9, 0x32ca2d8c);
    Turn(i, b, n + 1, 0x8e04ecb9, 0x85a07b5f, 0xe5030380, 0x2b4209f5, 0x32ca2d8c, 0x0c657a79, 0x9b27a401, 0x714260ad,
         0x12835b01, 0x00000000, 0x8c87346b, 0x1cc92596);
    Turn(i, b, n + 2, 0x8c87346b, 0x8e04ecb9, 0x85a07b5f, 0xe5030380, 0x1cc92596, 0x32ca2d8c, 0x0c657a79, 0x9b27a401,
         0x243185be, 0x00000000, 0x4798a3f4, 0x436b23e8);
    Turn(i, b, n + 3, 0x4798a3f4, 0x8c87346b, 0x8e04ecb9, 0x85a07b5f, 0x436b23e8, 0x1cc92596, 0x32ca2d8c, 0x0c657a79,
         0x550c7dc3, 0x00000000, 0xf71fc5a9, 0x816fd6e9);
    Turn(i, b, n + 4, 0xf71fc5a9, 0x4798a3f4, 0x8c87346b, 0x8e04ecb9, 0x816fd6e9, 0x436b23e8, 0x1cc92596, 0x32ca2d8c,
         0x72be5d74, 0x00000000, 0x87912990, 0x1e578218);
    Turn(i, b, n + 5, 0x87912990, 0xf71fc5a9, 0x4798a3f4, 0x8c87346b, 0x1e578218, 0x816fd6e9, 0x436b23e8, 0x1cc92596,
         0x80deb1fe, 0x00000000, 0xd932eb16, 0x745a48de);
    Turn(i, b, n + 6, 0xd932eb16, 0x87912990, 0xf71fc5a9, 0x4798a3f4, 0x745a48de, 0x1e578218, 0x816fd6e9, 0x436b23e8,
         0x9bdc06a7, 0x00000000, 0xc0645fde, 0x0b92f20c);
    Turn(i, b, n + 7, 0xc0645fde, 0xd932eb16, 0x87912990, 0xf71fc5a9, 0x0b92f20c, 0x745a48de, 0x1e578218, 0x816fd6e9,
         0xc19bf174, 0x00000018, 0xb0fa238e, 0x07590dcd);
  }

  lemma Keys8(n: nat)
    requires n == 8
    ensures K(n) == 0xd807aa98 && K(n + 1) == 0x12835b01
    ensures K(n + 2) == 0x243185be && K(n + 3) == 0x550c7dc3
    ensures K(n + 4) == 0x72be5d74 && K(n + 5) == 0x80deb1fe
    ensures K(n + 6) == 0x9bdc06a7 && K(n + 7) == 0xc19bf174
  {
  }

  lemma Rounds16(i: Hash, b: Chunk, n: nat)
    requires n == 16
    requires Words(b, n, 0x61626380, 0x000f0000, 0x7da86405, 0x600003c6, 0x3e9d7b78, 0x0183fc00, 0x12dcbfdb,
             0xe2e2c38e)
    requires Working(i, b, n) == Hash(0xb0fa238e, 0xc0645fde, 0xd932eb16, 0x87912990,
                                      0x07590dcd, 0x0b92f20c, 0x745a48de, 0x1e578218)
    ensures Working(i, b, n + 8) == Hash(0xc5d53d8d, 0xa7a3623f, 0xc2606d6d, 0x9dc68b63,
                                         0xaa47c347, 0x49f5114a, 0xe1257970, 0x8ada8930)
  {
    hide Schedule, Working, K;
    Keys16(n);
    Turn(i, b, n, 0xb0fa238e, 0xc0645fde, 0xd932eb16, 0x87912990, 0x07590dcd, 0x0b92f20c, 0x745a48de, 0x1e578218,
         0xe49b69c1, 0x61626380, 0x21da9a9b, 0x8034229c);
    Turn(i, b, n + 1, 0x21da9a9b, 0xb0fa238e, 0xc0645fde, 0xd932eb16, 0x8034229c, 0x07590dcd, 0x0b92f20c, 0x745a48de,
         0xefbe4786, 0x000f0000, 0xc2fbd9d1, 0x846ee454);
    Turn(i, b, n + 2, 0xc2fbd9d1, 0x21da9a9b, 0xb0fa238e, 0xc0645fde, 0x846ee454, 0x8034229c, 0x07590dcd, 0x0b92f20c,
         0x0fc19dc6, 0x7da86405, 0xfe777bbf, 0xcc899961);
    Turn(i, b, n + 3, 0xfe777bbf, 0xc2fbd9d1, 0x21da9a9b, 0xb0fa238e, 0xcc899961, 0x846ee454, 0x8034229c, 0x07590dcd,
         0x240ca1cc, 0x600003c6, 0xe1f20c33, 0xb0638179);
    Turn(i, b, n + 4, 0xe1f20c33, 0xfe777bbf, 0xc2fbd9d1, 0x21da9a9b, 0xb0638179, 0xcc899961, 0x846ee454, 0x8034229c,
         0x2de92c6f, 0x3e9d7b78, 0x9dc68b63, 0x8ada8930);
    Turn(i, b, n + 5, 0x9dc68b63, 0xe1f20c33, 0xfe777bbf, 0xc2fbd9d1, 0x8ada8930, 0xb0638179, 0xcc899961, 0x846ee454,
         0x4a7484aa, 0x0183fc00, 0xc2606d6d, 0xe1257970);
    Turn(i, b, n + 6, 0xc2606d6d, 0x9dc68b63, 0xe1f20c33, 0xfe777bbf, 0xe1257970, 0x8ada8930, 0xb0638179, 0xcc899961,
         0x5cb0a9dc, 0x12dcbfdb, 0xa7a3623f, 0x49f5114a);
    Turn(i, b, n + 7, 0xa7a3623f, 0xc2606d6d, 0x9dc68b63, 0xe1f20c33, 0x49f5114a, 0xe1257970, 0x8ada8930, 0xb0638179,
         0x76f988da, 0xe2e2c38e, 0xc5d53d8d, 0xaa47c347);
  }

  lemma Keys16(n: nat)
    requires n == 16
    ensures K(n) == 0xe49b69c1 && K(n + 1) == 0xefbe4786
    ensures K(n + 2) == 0x0fc19dc6 && K(n + 3) == 0x240ca1cc
    ensures K(n + 4) == 0x2de92c6f && K(n + 5) == 0x4a7484aa
    ensures K(n + 6) == 0x5cb0a9dc && K(n + 7) == 0x76f988da
  {
  }

  lemma Rounds24(i: Hash, b: Chunk, n: nat)
    requires n == 24
    requires Words(b, n, 0xc8215c1a, 0xb73679a2, 0xe5bc3909, 0x32663c5b, 0x9d209d67, 0xec8726cb, 0x702138a4,
             0xd3b7973b)
    requires Working(i, b, n) == Hash(0xc5d53d8d, 0xa7a3623f, 0xc2606d6d, 0x9dc68b63,
                                      0xaa47c347, 0x49f5114a, 0xe1257970, 0x8ada8930)
    ensures Working(i, b, n + 8) == Hash(0x73b33bf5, 0xea992a22, 0xa0060b30, 0x363482c9,
                                         0xba591112, 0x0109ab3a, 0xade79437, 0x6112a3b7)
  {
    hide Schedule, Working, K;
    Keys24(n);
    Turn(i, b, n, 0xc5d53d8d, 0xa7a3623f, 0xc2606d6d, 0x9dc68b63, 0xaa47c347, 0x49f5114a, 0xe1257970, 0x8ada8930,
         0x983e5152, 0xc8215c1a, 0x1c2c2838, 0x2823ef91);
    Turn(i, b, n + 1, 0x1c2c2838, 0xc5d53d8d, 0xa7a3623f, 0xc2606d6d, 0x2823ef91, 0xaa47c347, 0x49f5114a, 0xe1257970,
         0xa831c66d, 0xb73679a2, 0xcde8037d, 0x14383d8e);
    Turn(i, b, n + 2, 0xcde8037d, 0x1c2c2838, 0xc5d53d8d, 0xa7a3623f, 0x14383d8e, 0x2823ef91, 0xaa47c347, 0x49f5114a,
         0xb00327c8, 0xe5bc3909, 0xb62ec4bc, 0xc74c6516);
    Turn(i, b, n + 3, 0xb62ec4bc, 0xcde8037d, 0x1c2c2838, 0xc5d53d8d, 0xc74c6516, 0x14383d8e, 0x2823ef91, 0xaa47c347,
         0xbf597fc7, 0x32663c5b, 0x77d37528, 0xedffbff8);
    Turn(i, b, n + 4, 0x77d37528, 0xb62ec4bc, 0xcde8037d, 0x1c2c2838, 0xedffbff8, 0xc74c6516, 0x14383d8e, 0x2823ef91,
         0xc6e00bf3, 0x9d209d67, 0x363482c9, 0x6112a3b7);
    Turn(i, b, n + 5, 0x363482c9, 0x77d37528, 0xb62ec4bc, 0xcde8037d, 0x6112a3b7, 0xedffbff8, 0xc74c6516, 0x14383d8e,
         0xd5a79147, 0xec8726cb, 0xa0060b30, 0xade79437);
    Turn(i, b, n + 6, 0xa0060b30, 0x363482c9, 0x77d37528, 0xb62ec4bc, 0xade79437, 0x6112a3b7, 0xedffbff8, 0xc74c6516,
         0x06ca6351, 0x702138a4, 0xea992a22, 0x0109ab3a);
    Turn(i, b, n + 7, 0xea992a22, 0xa0060b30, 0x363482c9, 0x77d37528, 0x0109ab3a, 0xade79437, 0x6112a3b7, 0xedffbff8,
         0x14292967, 0xd3b7973b, 0x73b33bf5, 0xba591112);
  }

  lemma Keys24(n: nat)
    requires n == 24
    ensures K(n) == 0x983e5152 && K(n + 1) == 0xa831c66d
    ensures K(n + 2) == 0xb00327c8 && K(n + 3) == 0xbf597fc7
    ensures K(n + 4) == 0xc6e00bf3 && K(n + 5) == 0xd5a79147
    ensures K(n + 6) == 0x06ca6351 && K(n + 7) == 0x14292967
  {
  }

  lemma Rounds32(i: Hash, b: Chunk, n: nat)
    requires n == 32
    requires Words(b, n, 0x93f5997f, 0x3b68ba73, 0xaff4ffc1, 0xf10a5c62, 0x0a8b3996, 0x72af830a, 0x9409e33e,
             0x24641522)
    requires Working(i, b, n) == Hash(0x73b33bf5, 0xea992a22, 0xa0060b30, 0x363482c9,
                                      0xba591112, 0x0109ab3a, 0xade79437, 0x6112a3b7)
    ensures Working(i, b, n + 8) == Hash(0x79ea687a, 0x6dc57a8a, 0x34df1604, 0x41a65cb1,
                                         0x1efbc0a0, 0xf0781bc8, 0xa507a53d, 0x0772a26b)
  {
    hide Schedule, Working, K;
    Keys32(n);
    Turn(i, b, n, 0x73b33bf5, 0xea992a22, 0xa0060b30, 0x363482c9, 0xba591112, 0x0109ab3a, 0xade79437, 0x6112a3b7,
         0x27b70a85, 0x93f5997f, 0x98e12507, 0x9cd9f5f6);
    Turn(i, b, n + 1, 0x98e12507, 0x73b33bf5, 0xea992a22, 0xa0060b30, 0x9cd9f5f6, 0xba591112, 0x0109ab3a, 0xade79437,
         0x2e1b2138, 0x3b68ba73, 0xfe604df5, 0x59249dd3);
    Turn(i, b, n + 2, 0xfe604df5, 0x98e12507, 0x73b33bf5, 0xea992a22, 0x59249dd3, 0x9cd9f5f6, 0xba591112, 0x0109ab3a,
         0x4d2c6dfc, 0xaff4ffc1, 0xa9a7738c, 0x085f3833);
    Turn(i, b, n + 3, 0xa9a7738c, 0xfe604df5, 0x98e12507, 0x73b33bf5, 0x085f3833, 0x59249dd3, 0x9cd9f5f6, 0xba591112,
         0x53380d13, 0xf10a5c62, 0x65a0cfe4, 0xf4b002d6);
    Turn(i, b, n + 4, 0x65a0cfe4, 0xa9a7738c, 0xfe604df5, 0x98e12507, 0xf4b002d6, 0x085f3833, 0x59249dd3, 0x9cd9f5f6,
         0x650a7354, 0x0a8b3996, 0x41a65cb1, 0x0772a26b);
    Turn(i, b, n + 5, 0x41a65cb1, 0x65a0cfe4, 0xa9a7738c, 0xfe604df5, 0x0772a26b, 0xf4b002d6, 0x085f3833, 0x59249dd3,
         0x766a0abb, 0x72af830a, 0x34df1604, 0xa507a53d);
    Turn(i, b, n + 6, 0x34df1604, 0x41a65cb1, 0x65a0cfe4, 0xa9a7738c, 0xa507a53d, 0x0772a26b, 0xf4b002d6, 0x085f3833,
         0x81c2c92e, 0x9409e33e, 0x6dc57a8a, 0xf0781bc8);
    Turn(i, b, n + 7, 0x6dc57a8a, 0x34df1604, 0x41a65cb1, 0x65a0cfe4, 0xf0781bc8, 0xa507a53d, 0x0772a26b, 0xf4b002d6,
         0x92722c85, 0x24641522, 0x79ea687a, 0x1efbc0a0);
  }

  lemma Keys32(n: nat)
    requires n == 32
    ensures K(n) == 0x27b70a85 && K(n + 1) == 0x2e1b2138
    ensures K(n + 2) == 0x4d2c6dfc && K(n + 3) == 0x53380d13
    ensures K(n + 4) == 0x650a7354 && K(n + 5) == 0x766a0abb
    ensures K(n + 6) == 0x81c2c92e && K(n + 7) == 0x92722c85
  {
  }

  lemma Rounds40(i: Hash, b: Chunk, n: nat)
    requires n == 40
    requires Words(b, n, 0x9f47bf94, 0xf0a64f5a, 0x3e246a79, 0x27333ba3, 0x0c4763f2, 0x840abf27, 0x7a290d5d,
             0x065c43da)
    requires Working(i, b, n) == Hash(0x79ea687a, 0x6dc57a8a, 0x34df1604, 0x41a65cb1,
                                      0x1efbc0a0, 0xf0781bc8, 0xa507a53d, 0x0772a26b)
    ensures Working(i, b, n + 8) == Hash(0x4172328d, 0xa14c14b0, 0x72ab4b91, 0x26628815,
                                         0xfecf0bc6, 0xd57b94a9, 0xb7755da1, 0xa80f11f0)
  {
    hide Schedule, Working, K;
    Keys40(n);
    Turn(i, b, n, 0x79ea687a, 0x6dc57a8a, 0x34df1604, 0x41a65cb1, 0x1efbc0a0, 0xf0781bc8, 0xa507a53d, 0x0772a26b,
         0xa2bfe8a1, 0x9f47bf94, 0xd6670766, 0x26352d63);
    Turn(i, b, n + 1, 0xd6670766, 0x79ea687a, 0x6dc57a8a, 0x34df1604, 0x26352d63, 0x1efbc0a0, 0xf0781bc8, 0xa507a53d,
         0xa81a664b, 0xf0a64f5a, 0xdf46652f, 0x838b2711);
    Turn(i, b, n + 2, 0xdf46652f, 0xd6670766, 0x79ea687a, 0x6dc57a8a, 0x838b2711, 0x26352d63, 0x1efbc0a0, 0xf0781bc8,
         0xc24b8b70, 0x3e246a79, 0x17aa0dfe, 0xdecd4715);
    Turn(i, b, n + 3, 0x17aa0dfe, 0xdf46652f, 0xd6670766, 0x79ea687a, 0xdecd4715, 0x838b2711, 0x26352d63, 0x1efbc0a0,
         0xc76c51a3, 0x27333ba3, 0x9d4baf93, 0xfda24c2e);
    Turn(i, b, n + 4, 0x9d4baf93, 0x17aa0dfe, 0xdf46652f, 0xd6670766, 0xfda24c2e, 0xdecd4715, 0x838b2711, 0x26352d63,
         0xd192e819, 0x0c4763f2, 0x26628815, 0xa80f11f0);
    Turn(i, b, n + 5, 0x26628815, 0x9d4baf93, 0x17aa0dfe, 0xdf46652f, 0xa80f11f0, 0xfda24c2e, 0xdecd4715, 0x838b2711,
         0xd6990624, 0x840abf27, 0x72ab4b91, 0xb7755da1);
    Turn(i, b, n + 6, 0x72ab4b91, 0x26628815, 0x9d4baf93, 0x17aa0dfe, 0xb7755da1, 0xa80f11f0, 0xfda24c2e, 0xdecd4715,
         0xf40e3585, 0x7a290d5d, 0xa14c14b0, 0xd57b94a9);
    Turn(i, b, n + 7, 0xa14c14b0, 0x72ab4b91, 0x26628815, 0x9d4baf93, 0xd57b94a9, 0xb7755da1, 0xa80f11f0, 0xfda24c2e,
         0x106aa070, 0x065c43da, 0x4172328d, 0xfecf0bc6);
  }

  lemma Keys40(n: nat)
    requires n == 40
    ensures K(n) == 0xa2bfe8a1 && K(n + 1) == 0xa81a664b
    ensures K(n + 2) == 0xc24b8b70 && K(n + 3) == 0xc76c51a3
    ensures K(n + 4) == 0xd192e819 && K(n + 5) == 0xd6990624
    ensures K(n + 6) == 0xf40e3585 && K(n + 7) == 0x106aa070
  {
  }

  lemma Rounds48(i: Hash, b: Chunk, n: nat)
    requires n == 48
    requires Words(b, n, 0xfb3e89cb, 0xcc7617db, 0xb9e66c34, 0xa9993667, 0x84badedd, 0xc21462bc, 0x1487472c,
             0xb20f7a99)
    requires Working(i, b, n) == Hash(0x4172328d, 0xa14c14b0, 0x72ab4b91, 0x26628815,
                                      0xfecf0bc6, 0xd57b94a9, 0xb7755da1, 0xa80f11f0)
    ensures Working(i, b, n + 8) == Hash(0x38cc9913, 0x3ec45cdb, 0xf5702fdb, 0x101fd28f,
                                         0x54cb266b, 0xe50e1b4f, 0x9f4787c3, 0x529e7d00)
  {
    hide Schedule, Working, K;
    Keys48(n);
    Turn(i, b, n, 0x4172328d, 0xa14c14b0, 0x72ab4b91, 0x26628815, 0xfecf0bc6, 0xd57b94a9, 0xb7755da1, 0xa80f11f0,
         0x19a4c116, 0xfb3e89cb, 0x05757ceb, 0xbd714038);
    Turn(i, b, n + 1, 0x05757ceb, 0x4172328d, 0xa14c14b0, 0x72ab4b91, 0xbd714038, 0xfecf0bc6, 0xd57b94a9, 0xb7755da1,
         0x1e376c08, 0xcc7617db, 0xf11bfaa8, 0x6e5c390c);
    Turn(i, b, n + 2, 0xf11bfaa8, 0x05757ceb, 0x4172328d, 0xa14c14b0, 0x6e5c390c, 0xbd714038, 0xfecf0bc6, 0xd57b94a9,
         0x2748774c, 0xb9e66c34, 0x7a0508a1, 0x52f1ccf7);
    Turn(i, b, n + 3, 0x7a0508a1, 0xf11bfaa8, 0x05757ceb, 0x4172328d, 0x52f1ccf7, 0x6e5c390c, 0xbd714038, 0xfecf0bc6,
         0x34b0bcb5, 0xa9993667, 0x886e7a22, 0x49231c1e);
    Turn(i, b, n + 4, 0x886e7a22, 0x7a0508a1, 0xf11bfaa8, 0x05757ceb, 0x49231c1e, 0x52f1ccf7, 0x6e5c390c, 0xbd714038,
         0x391c0cb3, 0x84badedd, 0x101fd28f, 0x529e7d00);
    Turn(i, b, n + 5, 0x101fd28f, 0x886e7a22, 0x7a0508a1, 0xf11bfaa8, 0x529e7d00, 0x49231c1e, 0x52f1ccf7, 0x6e5c390c,
         0x4ed8aa4a, 0xc21462bc, 0xf5702fdb, 0x9f4787c3);
    Turn(i, b, n + 6, 0xf5702fdb, 0x101fd28f, 0x886e7a22, 0x7a0508a1, 0x9f4787c3, 0x529e7d00, 0x49231c1e, 0x52f1ccf7,
         0x5b9cca4f, 0x1487472c, 0x3ec45cdb, 0xe50e1b4f);
    Turn(i, b, n + 7, 0x3ec45cdb, 0xf5702fdb, 0x101fd28f, 0x886e7a22, 0xe50e1b4f, 0x9f4787c3, 0x529e7d00, 0x49231c1e,
         0x682e6ff3, 0xb20f7a99, 0x38cc9913, 0x54cb266b);
  }

  lemma Keys48(n: nat)
    requires n == 48
    ensures K(n) == 0x19a4c116 && K(n + 1) == 0x1e376c08
    ensures K(n + 2) == 0x2748774c && K(n + 3) == 0x34b0bcb5
    ensures K(n + 4) == 0x391c0cb3 && K(n + 5) == 0x4ed8aa4a
    ensures K(n + 6) == 0x5b9cca4f && K(n + 7) == 0x682e6ff3
  {
  }

  lemma Rounds56(i: Hash, b: Chunk, n: nat)
    requires n == 56
    requires Words(b, n, 0xef57b9cd, 0xebe6b238, 0x9fe3095e, 0x78bc8d4b, 0xa43fcf15, 0x668b2ff8, 0xeeaba2cc,
             0x12b1edeb)
    requires Working(i, b, n) == Hash(0x38cc9913, 0x3ec45cdb, 0xf5702fdb, 0x101fd28f,
                                      0x54cb266b, 0xe50e1b4f, 0x9f4787c3, 0x529e7d00)
    ensures Working(i, b, n + 8) == Hash(0x506e3058, 0xd39a2165, 0x04d24d6c, 0xb85e2ce9,
                                         0x5ef50f24, 0xfb121210, 0x948d25b6, 0x961f4894)
  {
    hide Schedule, Working, K;
    Keys56(n);
    Turn(i, b, n, 0x38cc9913, 0x3ec45cdb, 0xf5702fdb, 0x101fd28f, 0x54cb266b, 0xe50e1b4f, 0x9f4787c3, 0x529e7d00,
         0x748f82ee, 0xef57b9cd, 0xfcd1887b, 0x9b5e906c);
    Turn(i, b, n + 1, 0xfcd1887b, 0x38cc9913, 0x3ec45cdb, 0xf5702fdb, 0x9b5e906c, 0x54cb266b, 0xe50e1b4f, 0x9f4787c3,
         0x78a5636f, 0xebe6b238, 0xc062d46f, 0x7e44008e);
    Turn(i, b, n + 2, 0xc062d46f, 0xfcd1887b, 0x38cc9913, 0x3ec45cdb, 0x7e44008e, 0x9b5e906c, 0x54cb266b, 0xe50e1b4f,
         0x84c87814, 0x9fe3095e, 0xffb70472, 0x6d83bfc6);
    Turn(i, b, n + 3, 0xffb70472, 0xc062d46f, 0xfcd1887b, 0x38cc9913, 0x6d83bfc6, 0x7e44008e, 0x9b5e906c, 0x54cb266b,
         0x8cc70208, 0x78bc8d4b, 0xb6ae8fff, 0xb21bad3d);
    Turn(i, b, n + 4, 0xb6ae8fff, 0xffb70472, 0xc062d46f, 0xfcd1887b, 0xb21bad3d, 0x6d83bfc6, 0x7e44008e, 0x9b5e906c,
         0x90befffa, 0xa43fcf15, 0xb85e2ce9, 0x961f4894);
    Turn(i, b, n + 5, 0xb85e2ce9, 0xb6ae8fff, 0xffb70472, 0xc062d46f, 0x961f4894, 0xb21bad3d, 0x6d83bfc6, 0x7e44008e,
         0xa4506ceb, 0x668b2ff8, 0x04d24d6c, 0x948d25b6);
    Turn(i, b, n + 6, 0x04d24d6c, 0xb85e2ce9, 0xb6ae8fff, 0xffb70472, 0x948d25b6, 0x961f4894, 0xb21bad3d, 0x6d83bfc6,
         0xbef9a3f7, 0xeeaba2cc, 0xd39a2165, 0xfb121210);
    Turn(i, b, n + 7, 0xd39a2165, 0x04d24d6c, 0xb85e2ce9, 0xb6ae8fff, 0xfb121210, 0x948d25b6, 0x961f4894, 0xb21bad3d,
         0xc67178f2, 0x12b1edeb, 0x506e3058, 0x5ef50f24);
  }

  lemma Keys56(n: nat)
    requires n == 56
    ensures K(n) == 0x748f82ee && K(n + 1) == 0x78a5636f
    ensures K(n + 2) == 0x84c87814 && K(n + 3) == 0x8cc70208
    ensures K(n + 4) == 0x90befffa && K(n + 5) == 0xa4506ceb
    ensures K(n + 6) == 0xbef9a3f7 && K(n + 7) == 0xc67178f2
  {
  }

  // ---- the digest ----

  /** The padded message. */
  function AbcBlock(): (b: seq<byte>)
    ensures |b| == 64
  {
    [0x61, 0x62, 0x63] + [0x80] + Zeros(52) + [0, 0, 0, 0, 0, 0, 0, 24]
  }

  lemma FirstWords(b: Chunk, t: nat)
    requires b == AbcBlock() && t == 0
    ensures Words(b, t, 0x61626380, 0, 0, 0, 0, 0, 0, 0) && Words(b, t + 8, 0, 0, 0, 0, 0, 0, 0, 0x18)
  {
    hide WordOf;
    assert forall i :: 4 <= i < 63 ==> b[i] == 0;
    ThreeWords();
  }

  lemma ThreeWords()
    ensures WordOf(0x61, 0x62, 0x63, 0x80) == 0x61626380 && WordOf(0, 0, 0, 0) == 0 && WordOf(0, 0, 0, 24) == 0x18
  {
  }

  lemma AllRounds(i: Hash, b: Chunk, n: nat)
    requires i == InitialHash && b == AbcBlock() && n == 64
    ensures Working(i, b, n) ==
      Hash(0x506e3058, 0xd39a2165, 0x04d24d6c, 0xb85e2ce9,
           0x5ef50f24, 0xfb121210, 0x948d25b6, 0x961f4894)
  {
    hide Schedule, AbcBlock, Words;
    FirstWords(b, 0);
    Words16(b, n - 48);
    Words24(b, n - 40);
    Words32(b, n - 32);
    Words40(b, n - 24);
    Words48(b, n - 16);
    Words56(b, n - 8);
    Rounds0(i, b, n - 64);
    Rounds8(i, b, n - 56);
    Rounds16(i, b, n - 48);
    Rounds24(i, b, n - 40);
    Rounds32(i, b, n - 32);
    Rounds40(i, b, n - 24);
    Rounds48(i, b, n - 16);
    Rounds56(i, b, n - 8);
  }

  lemma CompressIs(i: Hash, b: Chunk)
    requires i == InitialHash && b == AbcBlock()
    ensures Compress(i, b) ==
      Hash(0xba7816bf, 0x8f01cfea, 0x414140de, 0x5dae2223,
           0xb00361a3, 0x96177a9c, 0xb410ff61, 0xf20015ad)
  {
    hide Working, AbcBlock;
    AllRounds(i, b, 64);
    Added(i, Working(i, b, 64));
  }

  lemma Added(i: Hash, v: Hash)
    requires i == InitialHash
    requires v == Hash(0x506e3058, 0xd39a2165, 0x04d24d6c, 0xb85e2ce9,
                       0x5ef50f24, 0xfb121210, 0x948d25b6, 0x961f4894)
    ensures Hash(Plus(v.a, i.a), Plus(v.b, i.b), Plus(v.c, i.c), Plus(v.d, i.d), Plus(v.e, i.e), Plus(v.f, i.f),
                 Plus(v.g, i.g), Plus(v.h, i.h)) ==
      Hash(0xba7816bf, 0x8f01cfea, 0x414140de, 0x5dae2223,
           0xb00361a3, 0x96177a9c, 0xb410ff61, 0xf20015ad)
  {
  }

  /** A digest is its eight words, one after the other. */
  predicate Spells(d: seq<byte>, i: nat, w: word)
    requires |d| == 32 && i < 8
  {
    d[4 * i..4 * i + 4] == WordBytes(w)
  }

  lemma DigestPart(h: Hash, i: nat)
    requires i < 8
    ensures Spells(Digest(h), i, HashWord(h, i))
  {
    hide WordBytes, HashWord;
    var d, w := Digest(h), HashWord(h, i);
    forall j | 0 <= j < 4 ensures d[4 * i + j] == WordBytes(w)[j] {
      assert (4 * i + j) / 4 == i && (4 * i + j) % 4 == j;
    }
  }

  lemma WordsSpelled()
    ensures WordBytes(0xba7816bf) == [0xba, 0x78, 0x16, 0xbf]
    ensures WordBytes(0x8f01cfea) == [0x8f, 0x01, 0xcf, 0xea]
    ensures WordBytes(0x414140de) == [0x41, 0x41, 0x40, 0xde]
    ensures WordBytes(0x5dae2223) == [0x5d, 0xae, 0x22, 0x23]
    ensures WordBytes(0xb00361a3) == [0xb0, 0x03, 0x61, 0xa3]
    ensures WordBytes(0x96177a9c) == [0x96, 0x17, 0x7a, 0x9c]
    ensures WordBytes(0xb410ff61) == [0xb4, 0x10, 0xff, 0x61]
    ensures WordBytes(0xf20015ad) == [0xf2, 0x00, 0x15, 0xad]
  {
  }

  lemma PaddedAbc()
    ensures Pad([0x61, 0x62, 0x63]) == AbcBlock()
  {
    hide Zeros, Be64;
    LengthOfAbc();
  }

  lemma LengthOfAbc()
    ensures Be64(24) == [0, 0, 0, 0, 0, 0, 0, 24]
  {
    hide ByteOf;
    SmallBytes();
  }

  lemma SmallBytes()
    ensures ByteOf(0) == 0 && ByteOf(24) == 24
  {
  }

  /** The digest of "abc", word by word. */
  lemma DigestOfAbc()
    ensures var d := Sha([0x61, 0x62, 0x63]);
      && d[0..4] == [0xba, 0x78, 0x16, 0xbf] && d[4..8] == [0x8f, 0x01, 0xcf, 0xea]
      && d[8..12] == [0x41, 0x41, 0x40, 0xde] && d[12..16] == [0x5d, 0xae, 0x22, 0x23]
      && d[16..20] == [0xb0, 0x03, 0x61, 0xa3] && d[20..24] == [0x96, 0x17, 0x7a, 0x9c]
      && d[24..28] == [0xb4, 0x10, 0xff, 0x61] && d[28..32] == [0xf2, 0x00, 0x15, 0xad]
  {
    hide Compress, AbcBlock, WordBytes, Digest;
    var b := AbcBlock();
    PaddedAbc();
    OneChunk(InitialHash, b);
    CompressIs(InitialHash, b);
    WordsSpelled();
    DigestPart(Compress(InitialHash, b), 0);
    DigestPart(Compress(InitialHash, b), 1);
    DigestPart(Compress(InitialHash, b), 2);
    DigestPart(Compress(InitialHash, b), 3);
    DigestPart(Compress(InitialHash, b), 4);
    DigestPart(Compress(InitialHash, b), 5);
    DigestPart(Compress(InitialHash, b), 6);
    DigestPart(Compress(InitialHash, b), 7);
  }
}
