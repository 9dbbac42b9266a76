/** The two lookup tables of CRUSH_Research/include/crush_ln_table.h.

    `__RH_LH_tbl` interleaves two columns; `Rh(k)` is entry 2k and `Lh(k)` is entry 2k+1.
    The entry-wise facts below are all that `crush_ln` rests on.
 */
module CrushLnTable {

  /** `__RH_LH_tbl[2k]`, about 2^48 / (1 + k/128). */
  function Rh(k: nat): int
    requires k < 129
  {
    if k < 80 then (
      if k < 48 then (
        if k < 32 then (
          if k < 16 then (
            match k
            case 0 => 0x1000000000000
            case 1 => 0xfe03f80fe040
            case 2 => 0xfc0fc0fc0fc1
            case 3 => 0xfa232cf25214
            case 4 => 0xf83e0f83e0f9
            case 5 => 0xf6603d980f67
            case 6 => 0xf4898d5f85bc
            case 7 => 0xf2b9d6480f2c
            case 8 => 0xf0f0f0f0f0f1
            case 9 => 0xef2eb71fc435
            case 10 => 0xed7303b5cc0f
            case 11 => 0xebbdb2a5c162
            case 12 => 0xea0ea0ea0ea1
            case 13 => 0xe865ac7b7604
            case 14 => 0xe6c2b4481cd9
            case _ => 0xe525982af70d
          ) else (
            match k
            case 16 => 0xe38e38e38e39
            case 17 => 0xe1fc780e1fc8
            case 18 => 0xe070381c0e08
            case 19 => 0xdee95c4ca038
            case 20 => 0xdd67c8a60dd7
            case 21 => 0xdbeb61eed19d
            case 22 => 0xda740da740db
            case 23 => 0xd901b2036407
            case 24 => 0xd79435e50d7a
            case 25 => 0xd62b80d62b81
            case 26 => 0xd4c77b03531e
            case 27 => 0xd3680d3680d4
            case 28 => 0xd20d20d20d21
            case 29 => 0xd0b69fcbd259
            case 30 => 0xcf6474a8819f
            case _ => 0xce168a772509
          )
        ) else (
          match k
          case 32 => 0xcccccccccccd
          case 33 => 0xcb8727c065c4
          case 34 => 0xca4587e6b750
          case 35 => 0xc907da4e8712
          case 36 => 0xc7ce0c7ce0c8
          case 37 => 0xc6980c6980c7
          case 38 => 0xc565c87b5f9e
          case 39 => 0xc4372f855d83
          case 40 => 0xc30c30c30c31
          case 41 => 0xc1e4bbd595f7
          case 42 => 0xc0c0c0c0c0c1
          case 43 => 0xbfa02fe80bfb
          case 44 => 0xbe82fa0be830
          case 45 => 0xbd6910470767
          case 46 => 0xbc52640bc527
          case _ => 0xbb3ee721a54e
        )
      ) else (
        if k < 64 then (
          match k
          case 48 => 0xba2e8ba2e8bb
          case 49 => 0xb92143fa36f6
          case 50 => 0xb81702e05c0c
          case 51 => 0xb70fbb5a19bf
          case 52 => 0xb60b60b60b61
          case 53 => 0xb509e68a9b95
          case 54 => 0xb40b40b40b41
          case 55 => 0xb30f63528918
          case 56 => 0xb21642c8590c
          case 57 => 0xb11fd3b80b12
          case 58 => 0xb02c0b02c0b1
          case 59 => 0xaf3addc680b0
          case 60 => 0xae4c415c9883
          case 61 => 0xad602b580ad7
          case 62 => 0xac7691840ac8
          case _ => 0xab8f69e2835a
        ) else (
          match k
          case 64 => 0xaaaaaaaaaaab
          case 65 => 0xa9c84a47a080
          case 66 => 0xa8e83f5717c1
          case 67 => 0xa80a80a80a81
          case 68 => 0xa72f0539782a
          case 69 => 0xa655c4392d7c
          case 70 => 0xa57eb50295fb
          case 71 => 0xa4a9cf1d9684
          case 72 => 0xa3d70a3d70a4
          case 73 => 0xa3065e3fae7d
          case 74 => 0xa237c32b16d0
          case 75 => 0xa16b312ea8fd
          case 76 => 0xa0a0a0a0a0a1
          case 77 => 0x9fd809fd80a0
          case 78 => 0x9f1165e72549
          case _ => 0x9e4cad23dd60
        )
      )
    ) else (
      if k < 112 then (
        if k < 96 then (
          match k
          case 80 => 0x9d89d89d89d9
          case 81 => 0x9cc8e160c3fc
          case 82 => 0x9c09c09c09c1
          case 83 => 0x9b4c6f9ef03b
          case 84 => 0x9a90e7d95bc7
          case 85 => 0x99d722dabde6
          case 86 => 0x991f1a515886
          case 87 => 0x9868c809868d
          case 88 => 0x97b425ed097c
          case 89 => 0x97012e025c05
          case 90 => 0x964fda6c0965
          case 91 => 0x95a02568095b
          case 92 => 0x94f2094f2095
          case 93 => 0x944580944581
          case 94 => 0x939a85c4093a
          case _ => 0x92f113840498
        ) else (
          match k
          case 96 => 0x924924924925
          case 97 => 0x91a2b3c4d5e7
          case 98 => 0x90fdbc090fdc
          case 99 => 0x905a38633e07
          case 100 => 0x8fb823ee08fc
          case 101 => 0x8f1779d9fdc4
          case 102 => 0x8e78356d1409
          case 103 => 0x8dda5202376a
          case 104 => 0x8d3dcb08d3dd
          case 105 => 0x8ca29c046515
          case 106 => 0x8c08c08c08c1
          case 107 => 0x8b70344a139c
          case 108 => 0x8ad8f2fba939
          case 109 => 0x8a42f870566a
          case 110 => 0x89ae4089ae41
          case _ => 0x891ac73ae982
        )
      ) else (
        if k < 128 then (
          match k
          case 112 => 0x888888888889
          case 113 => 0x87f78087f781
          case 114 => 0x8767ab5f34e5
          case 115 => 0x86d905447a35
          case 116 => 0x864b8a7de6d2
          case 117 => 0x85bf37612cef
          case 118 => 0x853408534086
          case 119 => 0x84a9f9c8084b
          case 120 => 0x842108421085
          case 121 => 0x839930523fbf
          case 122 => 0x83126e978d50
          case 123 => 0x828cbfbeb9a1
          case 124 => 0x820820820821
          case 125 => 0x81848da8faf1
          case 126 => 0x810204081021
          case _ => 0x808080808081
        ) else (
          match k
          case _ => 0x800000000000
        )
      )
    )
  }

  /** `__RH_LH_tbl[2k+1]`, about 2^48 * log2(1 + k/128); the last entry is 2^48 - 2^32. */
  function Lh(k: nat): int
    requires k < 129
  {
    if k < 80 then (
      if k < 48 then (
        if k < 32 then (
          if k < 16 then (
            match k
            case 0 => 0x000000000000
            case 1 => 0x02dfca16dde1
            case 2 => 0x05b9e5a170b4
            case 3 => 0x088e68ea899a
            case 4 => 0x0b5d69bac77e
            case 5 => 0x0e26fd5c8555
            case 6 => 0x10eb389fa29f
            case 7 => 0x13aa2fdd27f1
            case 8 => 0x1663f6fac913
            case 9 => 0x1918a16e4633
            case 10 => 0x1bc84240adab
            case 11 => 0x1e72ec117fa5
            case 12 => 0x2118b119b4f3
            case 13 => 0x23b9a32eaa56
            case 14 => 0x2655d3c4f15c
            case _ => 0x28ed53f307ee
          ) else (
            match k
            case 16 => 0x2b803473f7ad
            case 17 => 0x2e0e85a9de04
            case 18 => 0x309857a05e07
            case 19 => 0x331dba0efce1
            case 20 => 0x359ebc5b69d9
            case 21 => 0x381b6d9bb29b
            case 22 => 0x3a93dc9864b2
            case 23 => 0x3d0817ce9cd4
            case 24 => 0x3f782d7204d0
            case 25 => 0x41e42b6ec0c0
            case 26 => 0x444c1f6b4c2d
            case 27 => 0x46b016ca47c1
            case 28 => 0x49101eac381c
            case 29 => 0x4b6c43f1366a
            case 30 => 0x4dc4933a9337
            case _ => 0x501918ec6c11
          )
        ) else (
          match k
          case 32 => 0x5269e12f346e
          case 33 => 0x54b6f7f1325a
          case 34 => 0x570068e7ef5a
          case 35 => 0x59463f919dee
          case 36 => 0x5b8887367433
          case 37 => 0x5dc74ae9fbec
          case 38 => 0x6002958c5871
          case 39 => 0x623a71cb82c8
          case 40 => 0x646eea247c5c
          case 41 => 0x66a008e4788c
          case 42 => 0x68cdd829fd81
          case 43 => 0x6af861e5fc7d
          case 44 => 0x6d1fafdce20a
          case 45 => 0x6f43cba79e40
          case 46 => 0x7164beb4a56d
          case _ => 0x73829248e961
        )
      ) else (
        if k < 64 then (
          match k
          case 48 => 0x759d4f80cba8
          case 49 => 0x77b4ff5108d9
          case 50 => 0x79c9aa879d53
          case 51 => 0x7bdb59cca388
          case 52 => 0x7dea15a32c1b
          case 53 => 0x7ff5e66a0ffe
          case 54 => 0x81fed45cbccb
          case 55 => 0x8404e793fb81
          case 56 => 0x86082806b1d5
          case 57 => 0x88089d8a9e47
          case 58 => 0x8a064fd50f2a
          case 59 => 0x8c01467b94bb
          case 60 => 0x8df988f4ae80
          case 61 => 0x8fef1e987409
          case 62 => 0x91e20ea1393e
          case _ => 0x93d2602c2e5f
        ) else (
          match k
          case 64 => 0x95c01a39fbd6
          case 65 => 0x97ab43af59f9
          case 66 => 0x9993e355a4e5
          case 67 => 0x9b79ffdb6c8b
          case 68 => 0x9d5d9fd5010b
          case 69 => 0x9f3ec9bcfb80
          case 70 => 0xa11d83f4c355
          case 71 => 0xa2f9d4c51039
          case 72 => 0xa4d3c25e68dc
          case 73 => 0xa6ab52d99e76
          case 74 => 0xa8808c384547
          case 75 => 0xaa5374652a1c
          case 76 => 0xac241134c4e9
          case 77 => 0xadf26865a8a1
          case 78 => 0xafbe7fa0f04d
          case _ => 0xb1885c7aa982
        )
      )
    ) else (
      if k < 112 then (
        if k < 96 then (
          match k
          case 80 => 0xb35004723c46
          case 81 => 0xb5157cf2d078
          case 82 => 0xb6d8cb53b0ca
          case 83 => 0xb899f4d8ab63
          case 84 => 0xba58feb2703a
          case 85 => 0xbc15edfeed32
          case 86 => 0xbdd0c7c9a817
          case 87 => 0xbf89910c1678
          case 88 => 0xc1404eadf383
          case 89 => 0xc2f5058593d9
          case 90 => 0xc4a7ba58377c
          case 91 => 0xc65871da59dd
          case 92 => 0xc80730b00016
          case 93 => 0xc9b3fb6d0559
          case 94 => 0xcb5ed69565af
          case _ => 0xcd07c69d8702
        ) else (
          match k
          case 96 => 0xceaecfea8085
          case 97 => 0xd053f6d26089
          case 98 => 0xd1f73f9c70c0
          case 99 => 0xd398ae817906
          case 100 => 0xd53847ac00a6
          case 101 => 0xd6d60f388e41
          case 102 => 0xd8720935e643
          case 103 => 0xda0c39a54804
          case 104 => 0xdba4a47aa996
          case 105 => 0xdd3b4d9cf24b
          case 106 => 0xded038e633f3
          case 107 => 0xe0636a23e2ee
          case 108 => 0xe1f4e5170d02
          case 109 => 0xe384ad748f0e
          case 110 => 0xe512c6e54998
          case _ => 0xe69f35065448
        )
      ) else (
        if k < 128 then (
          match k
          case 112 => 0xe829fb693044
          case 113 => 0xe9b31d93f98e
          case 114 => 0xeb3a9f019750
          case 115 => 0xecc08321eb30
          case 116 => 0xee44cd59ffab
          case 117 => 0xefc781043579
          case 118 => 0xf148a170700a
          case 119 => 0xf2c831e44116
          case 120 => 0xf446359b1353
          case 121 => 0xf5c2afc65447
          case 122 => 0xf73da38d9d4a
          case 123 => 0xf8b7140edbb1
          case 124 => 0xfa2f045e7832
          case 125 => 0xfba577877d7d
          case 126 => 0xfd1a708bbe11
          case _ => 0xfe8df263f957
        ) else (
          match k
          case _ => 0xffff00000000
        )
      )
    )
  }

  /** The first half of `__LL_tbl`. */
  function LlLow(k: nat): int
    requires k < 128
  {
    if k < 64 then (
      if k < 32 then (
        if k < 16 then (
          match k
          case 0 => 0x000000000000
          case 1 => 0x0002e2a60a00
          case 2 => 0x00070cb64ec5
          case 3 => 0x0009ef50ce67
          case 4 => 0x000cd1e588fd
          case 5 => 0x000fb4747e9c
          case 6 => 0x001296fdaf5e
          case 7 => 0x001579811b58
          case 8 => 0x00185bfec2a1
          case 9 => 0x001b3e76a552
          case 10 => 0x001e20e8c380
          case 11 => 0x002103551d43
          case 12 => 0x0023e5bbb2b2
          case 13 => 0x0026c81c83e4
          case 14 => 0x0029aa7790f0
          case _ => 0x002c8cccd9ed
        ) else (
          match k
          case 16 => 0x002f6f1c5ef2
          case 17 => 0x003251662017
          case 18 => 0x003533aa1d71
          case 19 => 0x003815e8571a
          case 20 => 0x003af820cd26
          case 21 => 0x003dda537fae
          case 22 => 0x0040bc806ec8
          case 23 => 0x00439ea79a8c
          case 24 => 0x004680c90310
          case 25 => 0x004962e4a86c
          case 26 => 0x004c44fa8ab6
          case 27 => 0x004f270aaa06
          case 28 => 0x005209150672
          case 29 => 0x0054eb19a013
          case 30 => 0x0057cd1876fd
          case _ => 0x005aaf118b4a
        )
      ) else (
        if k < 48 then (
          match k
          case 32 => 0x005d9104dd0f
          case 33 => 0x006072f26c64
          case 34 => 0x006354da3960
          case 35 => 0x006636bc441a
          case 36 => 0x006918988ca8
          case 37 => 0x006bfa6f1322
          case 38 => 0x006edc3fd79f
          case 39 => 0x0071be0ada35
          case 40 => 0x00749fd01afd
          case 41 => 0x0077818f9a0c
          case 42 => 0x007a6349577a
          case 43 => 0x007d44fd535e
          case 44 => 0x008026ab8dce
          case 45 => 0x0083085406e3
          case 46 => 0x0085e9f6beb2
          case _ => 0x0088cb93b552
        ) else (
          match k
          case 48 => 0x008bad2aeadc
          case 49 => 0x008e8ebc5f65
          case 50 => 0x009170481305
          case 51 => 0x009451ce05d3
          case 52 => 0x0097334e37e5
          case 53 => 0x009a14c8a953
          case 54 => 0x009cf63d5a33
          case 55 => 0x009fd7ac4a9d
          case 56 => 0x00a2b07f3458
          case 57 => 0x00a59a78ea6a
          case 58 => 0x00a87bd699fb
          case 59 => 0x00ab5d2e8970
          case 60 => 0x00ae3e80b8e3
          case 61 => 0x00b11fcd2869
          case 62 => 0x00b40113d818
          case _ => 0x00b6e254c80a
        )
      )
    ) else (
      if k < 96 then (
        if k < 80 then (
          match k
          case 64 => 0x00b9c38ff853
          case 65 => 0x00bca4c5690c
          case 66 => 0x00bf85f51a4a
          case 67 => 0x00c2671f0c26
          case 68 => 0x00c548433eb6
          case 69 => 0x00c82961b211
          case 70 => 0x00cb0a7a664d
          case 71 => 0x00cdeb8d5b82
          case 72 => 0x00d0cc9a91c8
          case 73 => 0x00d3ada20933
          case 74 => 0x00d68ea3c1dd
          case 75 => 0x00d96f9fbbdb
          case 76 => 0x00dc5095f744
          case 77 => 0x00df31867430
          case 78 => 0x00e2127132b5
          case _ => 0x00e4f35632ea
        ) else (
          match k
          case 80 => 0x00e7d43574e6
          case 81 => 0x00eab50ef8c1
          case 82 => 0x00ed95e2be90
          case 83 => 0x00f076b0c66c
          case 84 => 0x00f35779106a
          case 85 => 0x00f6383b9ca2
          case 86 => 0x00f918f86b2a
          case 87 => 0x00fbf9af7c1a
          case 88 => 0x00feda60cf88
          case 89 => 0x0101bb0c658c
          case 90 => 0x01049bb23e3c
          case 91 => 0x01077c5259af
          case 92 => 0x010a5cecb7fc
          case 93 => 0x010d3d81593a
          case 94 => 0x01101e103d7f
          case _ => 0x0112fe9964e4
        )
      ) else (
        if k < 112 then (
          match k
          case 96 => 0x0115df1ccf7e
          case 97 => 0x0118bf9a7d64
          case 98 => 0x011ba0126ead
          case 99 => 0x011e8084a371
          case 100 => 0x012160f11bc6
          case 101 => 0x01244157d7c3
          case 102 => 0x012721b8d77f
          case 103 => 0x012a02141b10
          case 104 => 0x012ce269a28e
          case 105 => 0x012fc2b96e0f
          case 106 => 0x0132a3037daa
          case 107 => 0x01358347d177
          case 108 => 0x01386386698c
          case 109 => 0x013b43bf45ff
          case 110 => 0x013e23f266e9
          case _ => 0x0141041fcc5e
        ) else (
          match k
          case 112 => 0x0143e4477678
          case 113 => 0x0146c469654b
          case 114 => 0x0149a48598f0
          case 115 => 0x014c849c117c
          case 116 => 0x014f64accf08
          case 117 => 0x015244b7d1a9
          case 118 => 0x015524bd1976
          case 119 => 0x015804bca687
          case 120 => 0x015ae4b678f2
          case 121 => 0x015dc4aa90ce
          case 122 => 0x0160a498ee31
          case 123 => 0x016384819134
          case 124 => 0x0166646479ec
          case 125 => 0x01694441a870
          case 126 => 0x016c24191cd7
          case _ => 0x016df6ca19bd
        )
      )
    )
  }

  /** The second half of `__LL_tbl`. */
  function LlHigh(k: nat): int
    requires k < 128
  {
    if k < 64 then (
      if k < 32 then (
        if k < 16 then (
          match k
          case 0 => 0x0171e3b6d7aa
          case 1 => 0x0174c37d1e44
          case 2 => 0x0177a33dab1c
          case 3 => 0x017a82f87e49
          case 4 => 0x017d62ad97e2
          case 5 => 0x0180425cf7fe
          case 6 => 0x0182b07f3458
          case 7 => 0x018601aa8c19
          case 8 => 0x0188e148c046
          case 9 => 0x018bc0e13b52
          case 10 => 0x018ea073fd52
          case 11 => 0x01918001065d
          case 12 => 0x01945f88568b
          case 13 => 0x01973f09edf2
          case 14 => 0x019a1e85ccaa
          case _ => 0x019cfdfbf2c8
        ) else (
          match k
          case 16 => 0x019fdd6c6063
          case 17 => 0x01a2bcd71593
          case 18 => 0x01a59c3c126e
          case 19 => 0x01a87b9b570b
          case 20 => 0x01ab5af4e380
          case 21 => 0x01ae3a48b7e5
          case 22 => 0x01b11996d450
          case 23 => 0x01b3f8df38d9
          case 24 => 0x01b6d821e595
          case 25 => 0x01b9b75eda9b
          case 26 => 0x01bc96961803
          case 27 => 0x01bf75c79de3
          case 28 => 0x01c254f36c51
          case 29 => 0x01c534198365
          case 30 => 0x01c81339e336
          case _ => 0x01caf2548bd9
        )
      ) else (
        if k < 48 then (
          match k
          case 32 => 0x01cdd1697d67
          case 33 => 0x01d0b078b7f5
          case 34 => 0x01d38f823b9a
          case 35 => 0x01d66e86086d
          case 36 => 0x01d94d841e86
          case 37 => 0x01dc2c7c7df9
          case 38 => 0x01df0b6f26df
          case 39 => 0x01e1ea5c194e
          case 40 => 0x01e4c943555d
          case 41 => 0x01e7a824db23
          case 42 => 0x01ea8700aab5
          case 43 => 0x01ed65d6c42b
          case 44 => 0x01f044a7279d
          case 45 => 0x01f32371d51f
          case 46 => 0x01f60236ccca
          case _ => 0x01f8e0f60eb3
        ) else (
          match k
          case 48 => 0x01fbbfaf9af3
          case 49 => 0x01fe9e63719e
          case 50 => 0x02017d1192cc
          case 51 => 0x02045bb9fe94
          case 52 => 0x02073a5cb50d
          case 53 => 0x0209c06e6212
          case 54 => 0x020cf791026a
          case 55 => 0x020fd622997c
          case 56 => 0x0212b07f3458
          case 57 => 0x02159334a8d8
          case 58 => 0x021871b52150
          case 59 => 0x021b502fe517
          case 60 => 0x021d6a73a78f
          case 61 => 0x02210d144eee
          case 62 => 0x0223eb7df52c
          case _ => 0x0226c9e1e713
        )
      )
    ) else (
      if k < 96 then (
        if k < 80 then (
          match k
          case 64 => 0x0229a84024bb
          case 65 => 0x022c23679b4e
          case 66 => 0x022f64eb83a8
          case 67 => 0x02324338a51b
          case 68 => 0x0235218012a9
          case 69 => 0x0237ffc1cc69
          case 70 => 0x023a2c3b0ea4
          case 71 => 0x023d13ee805b
          case 72 => 0x024035e9221f
          case 73 => 0x0243788faf25
          case 74 => 0x024656b4e735
          case 75 => 0x0247ed646bfe
          case 76 => 0x024c12ee3d98
          case 77 => 0x024ef1025c1a
          case 78 => 0x0251cf10c799
          case _ => 0x025492644d65
        ) else (
          match k
          case 80 => 0x02578b1c85ee
          case 81 => 0x025a6919d8f0
          case 82 => 0x025d13ee805b
          case 83 => 0x026025036716
          case 84 => 0x026296453882
          case 85 => 0x0265e0d62b53
          case 86 => 0x0268beb701f3
          case 87 => 0x026b9c92265e
          case 88 => 0x026d32f798a9
          case 89 => 0x0271583758eb
          case 90 => 0x02743601673b
          case 91 => 0x027713c5c3b0
          case 92 => 0x0279f1846e5f
          case 93 => 0x027ccf3d6761
          case 94 => 0x027e6580aecb
          case _ => 0x02828a9e44b3
        )
      ) else (
        if k < 112 then (
          match k
          case 96 => 0x028568462932
          case 97 => 0x0287bdbf5255
          case 98 => 0x028b2384de4a
          case 99 => 0x028d13ee805b
          case 100 => 0x029035e9221f
          case 101 => 0x029296453882
          case 102 => 0x029699bdfb61
          case 103 => 0x029902a37aab
          case 104 => 0x029c54b864c9
          case 105 => 0x029deabd1083
          case 106 => 0x02a20f9c0bb5
          case 107 => 0x02a4c7605d61
          case 108 => 0x02a7bdbf5255
          case 109 => 0x02a96056dafc
          case 110 => 0x02ac3daf14ef
          case _ => 0x02af1b019eca
        ) else (
          match k
          case 112 => 0x02b296453882
          case 113 => 0x02b5d022d80f
          case 114 => 0x02b8fa471cb3
          case 115 => 0x02ba9012e713
          case 116 => 0x02bd6d4901cc
          case 117 => 0x02c04a796cf6
          case 118 => 0x02c327a428a6
          case 119 => 0x02c61a5e8f4c
          case 120 => 0x02c8e1e891f6
          case 121 => 0x02cbbf023fc2
          case 122 => 0x02ce9c163e6e
          case 123 => 0x02d179248e13
          case 124 => 0x02d4562d2ec6
          case 125 => 0x02d73330209d
          case 126 => 0x02da102d63b0
          case _ => 0x02dced24f814
        )
      )
    )
  }

  /** `__LL_tbl[k]`, about 2^48 * log2(1 + k/2^15). */
  function Ll(k: nat): int
    requires k < 256
  {
    if k < 128 then LlLow(k) else LlHigh(k - 128)
  }

  // Entry-wise, x * Rh(k) stays in the band [2^63, 2^63 + 2^56) over the 256 inputs x that
  // share the entry; the last shared entry (k = 127) stays within 2^63 + 129 * 2^48.

  lemma RhLow(k: nat)
    requires k < 129
    ensures 0x8000_0000_0000_0000 <= (128 + k) * 256 * Rh(k)
  {
  }

  lemma RhHigh(k: nat)
    requires k < 129
    ensures ((128 + k) * 256 + 255) * Rh(k) < if k == 127 then 0x8081_0000_0000_0000 else 0x8100_0000_0000_0000
  {
  }

  lemma LhBound(k: nat)
    requires k < 129
    ensures 0 <= Lh(k) <= if k <= 126 then 0xfd1a_708b_be11 else if k == 127 then 0xfe8d_f263_f957 else 0xffff_0000_0000
  {
  }

  lemma LlLowBound(k: nat)
    requires k < 128
    ensures 0 <= LlLow(k) <= if k == 0 then 0 else 0x171_e3b6_d7aa
  {
  }

  lemma LlHighBound(k: nat)
    requires k < 128
    ensures 0 <= LlHigh(k) <= if k == 0 then 0x171_e3b6_d7aa else 0x2dc_ed24_f814
  {
  }

  lemma LlBound(k: nat)
    requires k < 256
    ensures 0 <= Ll(k) <= if k == 0 then 0 else if k <= 128 then 0x171_e3b6_d7aa else 0x2dc_ed24_f814
  {
    hide LlLow, LlHigh;
    if k < 128 {
      LlLowBound(k);
    } else {
      LlHighBound(k - 128);
    }
  }

  // Order of the entries: both columns rise, and the whole band of one `Lh` entry, up to the last
  // `Ll` entry it is combined with, lies below the next `Lh` entry, except at the end.

  lemma LlLowRises(k: nat)
    requires k < 127
    ensures LlLow(k) <= LlLow(k + 1)
  {
  }

  lemma LlHighRises(k: nat)
    requires k < 127
    ensures LlHigh(k) <= LlHigh(k + 1)
  {
  }

  lemma {:induction false} LlRises(i: nat, k: nat)
    requires i <= k < 256
    ensures Ll(i) <= Ll(k)
  {
    hide LlLow, LlHigh;
    if i < k {
      LlRises(i, k - 1);
      if k == 128 {
        LlMiddle();
      } else if k < 128 {
        LlLowRises(k - 1);
      } else {
        LlHighRises(k - 129);
      }
    }
  }

  lemma LlMiddle()
    ensures LlLow(127) <= LlHigh(0)
  {
  }

  /** The last `Ll` entry that entry k is combined with. */
  function LastIndex(k: nat): (i: nat)
    requires k < 128
    ensures 128 <= i < 256
  {
    255 * 128 / (128 + k)
  }

  lemma LastShared(k: nat)
    requires k < 128
    ensures ((128 + k) * 256 + 255) * Rh(k) < (0x8000 + LastIndex(k) + 1) * 0x1_0000_0000_0000
  {
  }

  lemma BandsRise0(k: nat)
    requires 0 <= k < 16
    ensures Lh(k) + LlHigh(LastIndex(k) - 128) <= Lh(k + 1)
  {
  }

  lemma BandsRise16(k: nat)
    requires 16 <= k < 32
    ensures Lh(k) + LlHigh(LastIndex(k) - 128) <= Lh(k + 1)
  {
  }

  lemma BandsRise32(k: nat)
    requires 32 <= k < 48
    ensures Lh(k) + LlHigh(LastIndex(k) - 128) <= Lh(k + 1)
  {
  }

  lemma BandsRise48(k: nat)
    requires 48 <= k < 64
    ensures Lh(k) + LlHigh(LastIndex(k) - 128) <= Lh(k + 1)
  {
  }

  lemma BandsRise64(k: nat)
    requires 64 <= k < 80
    ensures Lh(k) + LlHigh(LastIndex(k) - 128) <= Lh(k + 1)
  {
  }

  lemma BandsRise80(k: nat)
    requires 80 <= k < 96
    ensures Lh(k) + LlHigh(LastIndex(k) - 128) <= Lh(k + 1)
  {
  }

  lemma BandsRise96(k: nat)
    requires 96 <= k < 112
    ensures Lh(k) + LlHigh(LastIndex(k) - 128) <= Lh(k + 1)
  {
  }

  lemma BandsRise112(k: nat)
    requires 112 <= k < 127
    ensures Lh(k) + LlHigh(LastIndex(k) - 128) <= Lh(k + 1)
  {
  }

  /** Entry k with everything that is combined with it stays at or below entry k + 1. */
  lemma BandsRise(k: nat)
    requires k < 127
    ensures Lh(k) + Ll(LastIndex(k)) <= Lh(k + 1)
  {
    hide Lh, LlHigh, LastIndex;
    if k < 64 {
      if k < 16 { BandsRise0(k); }
      else if k < 32 { BandsRise16(k); }
      else if k < 48 { BandsRise32(k); }
      else { BandsRise48(k); }
    } else {
      if k < 80 { BandsRise64(k); }
      else if k < 96 { BandsRise80(k); }
      else if k < 112 { BandsRise96(k); }
      else { BandsRise112(k); }
    }
  }
}
