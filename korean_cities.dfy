/** The alias table `KOREAN_CITIES` (app.py:379-733) and the typed-name lookup
    that consults it (app.py:738-741): a Korean place name that is a key of the
    table becomes the table's provider query, and any other text is passed to
    the weather provider unchanged. The table is written out region by region,
    in source order; the dictionary is the left fold of those entries, so a key
    that the literal repeats keeps its last value. */
module KoreanCities {
  import opened Wrappers
  import opened AliasFold


  // 서울특별시 (part 1 of 4), app.py:381-393
  const Seoul1: seq<Alias> := [
    ("서울", "Seoul"),
    ("서울특별시", "Seoul"),
    ("강남", "Gangnam-gu,Seoul,KR"),
    ("강남구", "Gangnam-gu,Seoul,KR"),
    ("강동", "Gangdong-gu,Seoul,KR"),
    ("강동구", "Gangdong-gu,Seoul,KR"),
    ("강북", "Gangbuk-gu,Seoul,KR"),
    ("강북구", "Gangbuk-gu,Seoul,KR"),
    ("강서", "Gangseo-gu,Seoul,KR"),
    ("강서구", "Gangseo-gu,Seoul,KR"),
    ("관악", "Gwanak-gu,Seoul,KR"),
    ("관악구", "Gwanak-gu,Seoul,KR"),
    ("광진", "Gwangjin-gu,Seoul,KR")
  ]

  // 서울특별시 (part 2 of 4), app.py:394-406
  const Seoul2: seq<Alias> := [
    ("광진구", "Gwangjin-gu,Seoul,KR"),
    ("구로", "Guro-gu,Seoul,KR"),
    ("구로구", "Guro-gu,Seoul,KR"),
    ("금천", "Geumcheon-gu,Seoul,KR"),
    ("금천구", "Geumcheon-gu,Seoul,KR"),
    ("노원", "Nowon-gu,Seoul,KR"),
    ("노원구", "Nowon-gu,Seoul,KR"),
    ("도봉", "Dobong-gu,Seoul,KR"),
    ("도봉구", "Dobong-gu,Seoul,KR"),
    ("동대문", "Dongdaemun-gu,Seoul,KR"),
    ("동대문구", "Dongdaemun-gu,Seoul,KR"),
    ("동작", "Dongjak-gu,Seoul,KR"),
    ("동작구", "Dongjak-gu,Seoul,KR")
  ]

  // 서울특별시 (part 3 of 4), app.py:407-419
  const Seoul3: seq<Alias> := [
    ("마포", "Mapo-gu,Seoul,KR"),
    ("마포구", "Mapo-gu,Seoul,KR"),
    ("서대문", "Seodaemun-gu,Seoul,KR"),
    ("서대문구", "Seodaemun-gu,Seoul,KR"),
    ("서초", "Seocho-gu,Seoul,KR"),
    ("서초구", "Seocho-gu,Seoul,KR"),
    ("성동", "Seongdong-gu,Seoul,KR"),
    ("성동구", "Seongdong-gu,Seoul,KR"),
    ("성북", "Seongbuk-gu,Seoul,KR"),
    ("성북구", "Seongbuk-gu,Seoul,KR"),
    ("송파", "Songpa-gu,Seoul,KR"),
    ("송파구", "Songpa-gu,Seoul,KR"),
    ("양천", "Yangcheon-gu,Seoul,KR")
  ]

  // 서울특별시 (part 4 of 4), app.py:420-431
  const Seoul4: seq<Alias> := [
    ("양천구", "Yangcheon-gu,Seoul,KR"),
    ("영등포", "Yeongdeungpo-gu,Seoul,KR"),
    ("영등포구", "Yeongdeungpo-gu,Seoul,KR"),
    ("용산", "Yongsan-gu,Seoul,KR"),
    ("용산구", "Yongsan-gu,Seoul,KR"),
    ("은평", "Eunpyeong-gu,Seoul,KR"),
    ("은평구", "Eunpyeong-gu,Seoul,KR"),
    ("종로", "Jongno-gu,Seoul,KR"),
    ("종로구", "Jongno-gu,Seoul,KR"),
    ("중구", "Jung-gu,Seoul,KR"),
    ("중랑", "Jungnang-gu,Seoul,KR"),
    ("중랑구", "Jungnang-gu,Seoul,KR")
  ]

  // 부산광역시 (part 1 of 2), app.py:434-444
  const Busan1: seq<Alias> := [
    ("부산", "Busan"),
    ("부산광역시", "Busan"),
    ("해운대", "Haeundae-gu,Busan,KR"),
    ("해운대구", "Haeundae-gu,Busan,KR"),
    ("부산진", "Busanjin-gu,Busan,KR"),
    ("부산진구", "Busanjin-gu,Busan,KR"),
    ("동래", "Dongnae-gu,Busan,KR"),
    ("동래구", "Dongnae-gu,Busan,KR"),
    ("남구", "Nam-gu,Busan,KR"),
    ("북구", "Buk-gu,Busan,KR"),
    ("수영", "Suyeong-gu,Busan,KR")
  ]

  // 부산광역시 (part 2 of 2), app.py:445-454
  const Busan2: seq<Alias> := [
    ("수영구", "Suyeong-gu,Busan,KR"),
    ("사상", "Sasang-gu,Busan,KR"),
    ("사상구", "Sasang-gu,Busan,KR"),
    ("연제", "Yeonje-gu,Busan,KR"),
    ("연제구", "Yeonje-gu,Busan,KR"),
    ("서구", "Seo-gu,Busan,KR"),
    ("금정", "Geumjeong-gu,Busan,KR"),
    ("금정구", "Geumjeong-gu,Busan,KR"),
    ("기장", "Gijang-gun,Busan,KR"),
    ("기장군", "Gijang-gun,Busan,KR")
  ]

  // 대구광역시, app.py:457-462
  const Daegu: seq<Alias> := [
    ("대구", "Daegu"),
    ("대구광역시", "Daegu"),
    ("수성", "Suseong-gu,Daegu,KR"),
    ("수성구", "Suseong-gu,Daegu,KR"),
    ("달서", "Dalseo-gu,Daegu,KR"),
    ("달서구", "Dalseo-gu,Daegu,KR")
  ]

  // 인천광역시 (part 1 of 2), app.py:465-473
  const Incheon1: seq<Alias> := [
    ("인천", "Incheon"),
    ("인천광역시", "Incheon"),
    ("남동", "Namdong-gu,Incheon,KR"),
    ("남동구", "Namdong-gu,Incheon,KR"),
    ("부평", "Bupyeong-gu,Incheon,KR"),
    ("부평구", "Bupyeong-gu,Incheon,KR"),
    ("연수", "Yeonsu-gu,Incheon,KR"),
    ("연수구", "Yeonsu-gu,Incheon,KR"),
    ("중구", "Jung-gu,Incheon,KR")
  ]

  // 인천광역시 (part 2 of 2), app.py:474-482
  const Incheon2: seq<Alias> := [
    ("계양", "Gyeyang-gu,Incheon,KR"),
    ("계양구", "Gyeyang-gu,Incheon,KR"),
    ("서구", "Seo-gu,Incheon,KR"),
    ("동구", "Dong-gu,Incheon,KR"),
    ("미추홀", "Michuhol-gu,Incheon,KR"),
    ("미추홀구", "Michuhol-gu,Incheon,KR"),
    ("송도", "Songdo,Incheon,KR"),
    ("강화", "Ganghwa-gun,Incheon,KR"),
    ("강화군", "Ganghwa-gun,Incheon,KR")
  ]

  // 광주광역시, app.py:485-488
  const Gwangju: seq<Alias> := [
    ("광주", "Gwangju"),
    ("광주광역시", "Gwangju"),
    ("광산", "Gwangsan-gu,Gwangju,KR"),
    ("광산구", "Gwangsan-gu,Gwangju,KR")
  ]

  // 대전광역시, app.py:491-499
  const Daejeon: seq<Alias> := [
    ("대전", "Daejeon"),
    ("대전광역시", "Daejeon"),
    ("유성", "Yuseong-gu,Daejeon,KR"),
    ("유성구", "Yuseong-gu,Daejeon,KR"),
    ("서구", "Seo-gu,Daejeon,KR"),
    ("중구", "Jung-gu,Daejeon,KR"),
    ("동구", "Dong-gu,Daejeon,KR"),
    ("대덕", "Daedeok-gu,Daejeon,KR"),
    ("대덕구", "Daedeok-gu,Daejeon,KR")
  ]

  // 울산광역시, app.py:502-509
  const Ulsan: seq<Alias> := [
    ("울산", "Ulsan"),
    ("울산광역시", "Ulsan"),
    ("남구", "Nam-gu,Ulsan,KR"),
    ("동구", "Dong-gu,Ulsan,KR"),
    ("북구", "Buk-gu,Ulsan,KR"),
    ("중구", "Jung-gu,Ulsan,KR"),
    ("울주", "Ulju-gun,Ulsan,KR"),
    ("울주군", "Ulju-gun,Ulsan,KR")
  ]

  // 세종특별자치시, app.py:512-514
  const Sejong: seq<Alias> := [
    ("세종", "Sejong"),
    ("세종시", "Sejong"),
    ("세종특별자치시", "Sejong")
  ]

  // 경기도 (part 1 of 4), app.py:517-529
  const Gyeonggi1: seq<Alias> := [
    ("수원", "Suwon"),
    ("장안구", "Jangan-gu,Suwon,KR"),
    ("권선구", "Gwonseon-gu,Suwon,KR"),
    ("팔달구", "Paldal-gu,Suwon,KR"),
    ("영통구", "Yeongtong-gu,Suwon,KR"),
    ("성남", "Seongnam"),
    ("분당", "Bundang-gu,Seongnam,KR"),
    ("분당구", "Bundang-gu,Seongnam,KR"),
    ("수정구", "Sujeong-gu,Seongnam,KR"),
    ("중원구", "Jungwon-gu,Seongnam,KR"),
    ("고양", "Goyang"),
    ("일산", "Ilsandong-gu,Goyang,KR"),
    ("일산동구", "Ilsandong-gu,Goyang,KR")
  ]

  // 경기도 (part 2 of 4), app.py:530-542
  const Gyeonggi2: seq<Alias> := [
    ("일산서구", "Ilsanseo-gu,Goyang,KR"),
    ("덕양구", "Deogyang-gu,Goyang,KR"),
    ("용인", "Yongin"),
    ("기흥구", "Giheung-gu,Yongin,KR"),
    ("수지구", "Suji-gu,Yongin,KR"),
    ("처인구", "Cheoin-gu,Yongin,KR"),
    ("부천", "Bucheon"),
    ("안산", "Ansan"),
    ("단원구", "Danwon-gu,Ansan,KR"),
    ("상록구", "Sangnok-gu,Ansan,KR"),
    ("안양", "Anyang"),
    ("만안구", "Manan-gu,Anyang,KR"),
    ("동안구", "Dongan-gu,Anyang,KR")
  ]

  // 경기도 (part 3 of 4), app.py:543-555
  const Gyeonggi3: seq<Alias> := [
    ("남양주", "Namyangju"),
    ("화성", "Hwaseong"),
    ("평택", "Pyeongtaek"),
    ("의정부", "Uijeongbu"),
    ("시흥", "Siheung"),
    ("파주", "Paju"),
    ("김포", "Gimpo"),
    ("광명", "Gwangmyeong"),
    ("광주시", "Gwangju-si,Gyeonggi,KR"),
    ("군포", "Gunpo"),
    ("하남", "Hanam"),
    ("오산", "Osan"),
    ("양주", "Yangju")
  ]

  // 경기도 (part 4 of 4), app.py:556-566
  const Gyeonggi4: seq<Alias> := [
    ("이천", "Icheon"),
    ("구리", "Guri"),
    ("안성", "Anseong"),
    ("포천", "Pocheon"),
    ("의왕", "Uiwang"),
    ("양평", "Yangpyeong"),
    ("여주", "Yeoju"),
    ("동두천", "Dongducheon"),
    ("과천", "Gwacheon"),
    ("가평", "Gapyeong"),
    ("연천", "Yeoncheon")
  ]

  // 강원도 (part 1 of 2), app.py:569-578
  const Gangwon1: seq<Alias> := [
    ("춘천", "Chuncheon"),
    ("원주", "Wonju"),
    ("강릉", "Gangneung"),
    ("동해", "Donghae"),
    ("태백", "Taebaek"),
    ("속초", "Sokcho"),
    ("삼척", "Samcheok"),
    ("홍천", "Hongcheon"),
    ("횡성", "Hoengseong"),
    ("영월", "Yeongwol")
  ]

  // 강원도 (part 2 of 2), app.py:579-587
  const Gangwon2: seq<Alias> := [
    ("평창", "Pyeongchang"),
    ("정선", "Jeongseon"),
    ("철원", "Cheorwon"),
    ("화천", "Hwacheon"),
    ("양구", "Yanggu"),
    ("인제", "Inje"),
    ("고성", "Goseong"),
    ("양양", "Yangyang"),
    ("강원도", "Gangwon-do")
  ]

  // 충청북도 (part 1 of 2), app.py:590-597
  const Chungbuk1: seq<Alias> := [
    ("청주", "Cheongju"),
    ("상당구", "Sangdang-gu,Cheongju,KR"),
    ("서원구", "Seowon-gu,Cheongju,KR"),
    ("흥덕구", "Heungdeok-gu,Cheongju,KR"),
    ("청원구", "Cheongwon-gu,Cheongju,KR"),
    ("충주", "Chungju"),
    ("제천", "Jecheon"),
    ("보은", "Boeun")
  ]

  // 충청북도 (part 2 of 2), app.py:598-605
  const Chungbuk2: seq<Alias> := [
    ("옥천", "Okcheon"),
    ("영동", "Yeongdong"),
    ("증평", "Jeungpyeong"),
    ("진천", "Jincheon"),
    ("괴산", "Goesan"),
    ("음성", "Eumseong"),
    ("단양", "Danyang"),
    ("충청북도", "Chungcheongbuk-do")
  ]

  // 충청남도 (part 1 of 2), app.py:608-616
  const Chungnam1: seq<Alias> := [
    ("천안", "Cheonan"),
    ("동남구", "Dongnam-gu,Cheonan,KR"),
    ("서북구", "Seobuk-gu,Cheonan,KR"),
    ("공주", "Gongju"),
    ("보령", "Boryeong"),
    ("아산", "Asan"),
    ("서산", "Seosan"),
    ("논산", "Nonsan"),
    ("계룡", "Gyeryong")
  ]

  // 충청남도 (part 2 of 2), app.py:617-625
  const Chungnam2: seq<Alias> := [
    ("당진", "Dangjin"),
    ("금산", "Geumsan"),
    ("부여", "Buyeo"),
    ("서천", "Seocheon"),
    ("청양", "Cheongyang"),
    ("홍성", "Hongseong"),
    ("예산", "Yesan"),
    ("태안", "Taean"),
    ("충청남도", "Chungcheongnam-do")
  ]

  // 전라북도 (part 1 of 2), app.py:628-636
  const Jeonbuk1: seq<Alias> := [
    ("전주", "Jeonju"),
    ("완산구", "Wansan-gu,Jeonju,KR"),
    ("덕진구", "Deokjin-gu,Jeonju,KR"),
    ("군산", "Gunsan"),
    ("익산", "Iksan"),
    ("정읍", "Jeongeup"),
    ("남원", "Namwon"),
    ("김제", "Gimje"),
    ("완주", "Wanju")
  ]

  // 전라북도 (part 2 of 2), app.py:637-644
  const Jeonbuk2: seq<Alias> := [
    ("진안", "Jinan"),
    ("무주", "Muju"),
    ("장수", "Jangsu"),
    ("임실", "Imsil"),
    ("순창", "Sunchang"),
    ("고창", "Gochang"),
    ("부안", "Buan"),
    ("전라북도", "Jeollabuk-do")
  ]

  // 전라남도 (part 1 of 2), app.py:647-658
  const Jeonnam1: seq<Alias> := [
    ("목포", "Mokpo"),
    ("여수", "Yeosu"),
    ("순천", "Suncheon"),
    ("나주", "Naju"),
    ("광양", "Gwangyang"),
    ("담양", "Damyang"),
    ("곡성", "Gokseong"),
    ("구례", "Gurye"),
    ("고흥", "Goheung"),
    ("보성", "Boseong"),
    ("화순", "Hwasun"),
    ("장흥", "Jangheung")
  ]

  // 전라남도 (part 2 of 2), app.py:659-669
  const Jeonnam2: seq<Alias> := [
    ("강진", "Gangjin"),
    ("해남", "Haenam"),
    ("영암", "Yeongam"),
    ("무안", "Muan"),
    ("함평", "Hampyeong"),
    ("영광", "Yeonggwang"),
    ("장성", "Jangseong"),
    ("완도", "Wando"),
    ("진도", "Jindo"),
    ("신안", "Sinan"),
    ("전라남도", "Jeollanam-do")
  ]

  // 경상북도 (part 1 of 3), app.py:672-680
  const Gyeongbuk1: seq<Alias> := [
    ("포항", "Pohang"),
    ("남구", "Nam-gu,Pohang,KR"),
    ("북구", "Buk-gu,Pohang,KR"),
    ("경주", "Gyeongju"),
    ("김천", "Gimcheon"),
    ("안동", "Andong"),
    ("구미", "Gumi"),
    ("영주", "Yeongju"),
    ("영천", "Yeongcheon")
  ]

  // 경상북도 (part 2 of 3), app.py:681-689
  const Gyeongbuk2: seq<Alias> := [
    ("상주", "Sangju"),
    ("문경", "Mungyeong"),
    ("경산", "Gyeongsan"),
    ("군위", "Gunwi"),
    ("의성", "Uiseong"),
    ("청송", "Cheongsong"),
    ("영양", "Yeongyang"),
    ("영덕", "Yeongdeok"),
    ("청도", "Cheongdo")
  ]

  // 경상북도 (part 3 of 3), app.py:690-698
  const Gyeongbuk3: seq<Alias> := [
    ("고령", "Goryeong"),
    ("성주", "Seongju"),
    ("칠곡", "Chilgok"),
    ("예천", "Yecheon"),
    ("봉화", "Bonghwa"),
    ("울진", "Uljin"),
    ("울릉", "Ulleung"),
    ("울릉도", "Ulleungdo"),
    ("경상북도", "Gyeongsangbuk-do")
  ]

  // 경상남도 (part 1 of 2), app.py:701-713
  const Gyeongnam1: seq<Alias> := [
    ("창원", "Changwon"),
    ("의창구", "Uichang-gu,Changwon,KR"),
    ("성산구", "Seongsan-gu,Changwon,KR"),
    ("마산", "Masan,Changwon,KR"),
    ("마산합포구", "Masanhappo-gu,Changwon,KR"),
    ("마산회원구", "Masanhoewon-gu,Changwon,KR"),
    ("진해", "Jinhae-gu,Changwon,KR"),
    ("진해구", "Jinhae-gu,Changwon,KR"),
    ("진주", "Jinju"),
    ("통영", "Tongyeong"),
    ("사천", "Sacheon"),
    ("김해", "Gimhae"),
    ("밀양", "Miryang")
  ]

  // 경상남도 (part 2 of 2), app.py:714-726
  const Gyeongnam2: seq<Alias> := [
    ("거제", "Geoje"),
    ("양산", "Yangsan"),
    ("의령", "Uiryeong"),
    ("함안", "Haman"),
    ("창녕", "Changnyeong"),
    ("고성군", "Goseong-gun,Gyeongnam,KR"),
    ("남해", "Namhae"),
    ("하동", "Hadong"),
    ("산청", "Sancheong"),
    ("함양", "Hamyang"),
    ("거창", "Geochang"),
    ("합천", "Hapcheon"),
    ("경상남도", "Gyeongsangnam-do")
  ]

  // 제주특별자치도, app.py:729-732
  const Jeju: seq<Alias> := [
    ("제주", "Jeju"),
    ("제주시", "Jeju City"),
    ("서귀포", "Seogwipo"),
    ("제주도", "Jeju")
  ]

  /** The regions in the order the literal lists them. */
  const Regions: seq<seq<Alias>> := [
    Seoul1, Seoul2, Seoul3, Seoul4, Busan1, Busan2,
    Daegu, Incheon1, Incheon2, Gwangju, Daejeon, Ulsan,
    Sejong, Gyeonggi1, Gyeonggi2, Gyeonggi3, Gyeonggi4, Gangwon1,
    Gangwon2, Chungbuk1, Chungbuk2, Chungnam1, Chungnam2, Jeonbuk1,
    Jeonbuk2, Jeonnam1, Jeonnam2, Gyeongbuk1, Gyeongbuk2, Gyeongbuk3,
    Gyeongnam1, Gyeongnam2, Jeju
  ]

  /** Every entry of the literal, in source order. */
  const Entries: seq<Alias> := Flatten(Regions)

  /** `KOREAN_CITIES`: the dictionary the literal evaluates to. */
  const Table: map<string, string> := FoldLeft(map[], Entries)

  /** The precomposed Hangul syllables are U+AC00 to U+D7A3. */
  const FirstSyllable: char := '\U{AC00}'
  const LastSyllable: char := '\U{D7A3}'

  predicate IsSyllable(c: char)
  {
    FirstSyllable <= c <= LastSyllable
  }

  /** Every key of `entries` is non-empty and starts with a Hangul syllable. */
  predicate KoreanLed(entries: seq<Alias>)
  {
    forall i | 0 <= i < |entries| :: entries[i].0 != [] && IsSyllable(entries[i].0[0])
  }


  /** No entry of `entries` carries any of `keys`. */
  predicate Avoids(entries: seq<Alias>, keys: set<string>)
  {
    forall i | 0 <= i < |entries| :: entries[i].0 !in keys
  }

  // Facts about each region group, checked entry by entry.

  lemma Seoul1Led() ensures KoreanLed(Seoul1) {}
  lemma Seoul1Avoids() ensures Avoids(Seoul1, {"중구", "남구", "서구", "동구", "북구"}) {}
  lemma Seoul2Led() ensures KoreanLed(Seoul2) {}
  lemma Seoul2Avoids() ensures Avoids(Seoul2, {"강남구", "중구", "남구", "서구", "동구", "북구"}) {}
  lemma Seoul3Led() ensures KoreanLed(Seoul3) {}
  lemma Seoul3Avoids() ensures Avoids(Seoul3, {"강남구", "중구", "남구", "서구", "동구", "북구"}) {}
  lemma Seoul4Led() ensures KoreanLed(Seoul4) {}
  lemma Seoul4Avoids() ensures Avoids(Seoul4, {"강남구", "남구", "서구", "동구", "북구"}) {}
  lemma Busan1Led() ensures KoreanLed(Busan1) {}
  lemma Busan1Avoids() ensures Avoids(Busan1, {"강남구", "중구", "서구", "동구"}) {}
  lemma Busan2Led() ensures KoreanLed(Busan2) {}
  lemma Busan2Avoids() ensures Avoids(Busan2, {"강남구", "중구", "남구", "동구", "북구"}) {}
  lemma DaeguLed() ensures KoreanLed(Daegu) {}
  lemma DaeguAvoids() ensures Avoids(Daegu, {"강남구", "중구", "남구", "서구", "동구", "북구"}) {}
  lemma Incheon1Led() ensures KoreanLed(Incheon1) {}
  lemma Incheon1Avoids() ensures Avoids(Incheon1, {"강남구", "남구", "서구", "동구", "북구"}) {}
  lemma Incheon2Led() ensures KoreanLed(Incheon2) {}
  lemma Incheon2Avoids() ensures Avoids(Incheon2, {"강남구", "중구", "남구", "북구"}) {}
  lemma GwangjuLed() ensures KoreanLed(Gwangju) {}
  lemma GwangjuAvoids() ensures Avoids(Gwangju, {"강남구", "중구", "남구", "서구", "동구", "북구"}) {}
  lemma DaejeonLed() ensures KoreanLed(Daejeon) {}
  lemma DaejeonAvoids() ensures Avoids(Daejeon, {"강남구", "남구", "북구"}) {}
  lemma UlsanLed() ensures KoreanLed(Ulsan) {}
  lemma UlsanAvoids() ensures Avoids(Ulsan, {"강남구", "서구"}) {}
  lemma SejongLed() ensures KoreanLed(Sejong) {}
  lemma SejongAvoids() ensures Avoids(Sejong, {"강남구", "중구", "남구", "서구", "동구", "북구"}) {}
  lemma Gyeonggi1Led() ensures KoreanLed(Gyeonggi1) {}
  lemma Gyeonggi1Avoids() ensures Avoids(Gyeonggi1, {"강남구", "중구", "남구", "서구", "동구", "북구"}) {}
  lemma Gyeonggi2Led() ensures KoreanLed(Gyeonggi2) {}
  lemma Gyeonggi2Avoids() ensures Avoids(Gyeonggi2, {"강남구", "중구", "남구", "서구", "동구", "북구"}) {}
  lemma Gyeonggi3Led() ensures KoreanLed(Gyeonggi3) {}
  lemma Gyeonggi3Avoids() ensures Avoids(Gyeonggi3, {"강남구", "중구", "남구", "서구", "동구", "북구"}) {}
  lemma Gyeonggi4Led() ensures KoreanLed(Gyeonggi4) {}
  lemma Gyeonggi4Avoids() ensures Avoids(Gyeonggi4, {"강남구", "중구", "남구", "서구", "동구", "북구"}) {}
  lemma Gangwon1Led() ensures KoreanLed(Gangwon1) {}
  lemma Gangwon1Avoids() ensures Avoids(Gangwon1, {"강남구", "중구", "남구", "서구", "동구", "북구"}) {}
  lemma Gangwon2Led() ensures KoreanLed(Gangwon2) {}
  lemma Gangwon2Avoids() ensures Avoids(Gangwon2, {"강남구", "중구", "남구", "서구", "동구", "북구"}) {}
  lemma Chungbuk1Led() ensures KoreanLed(Chungbuk1) {}
  lemma Chungbuk1Avoids() ensures Avoids(Chungbuk1, {"강남구", "중구", "남구", "서구", "동구", "북구"}) {}
  lemma Chungbuk2Led() ensures KoreanLed(Chungbuk2) {}
  lemma Chungbuk2Avoids() ensures Avoids(Chungbuk2, {"강남구", "중구", "남구", "서구", "동구", "북구"}) {}
  lemma Chungnam1Led() ensures KoreanLed(Chungnam1) {}
  lemma Chungnam1Avoids() ensures Avoids(Chungnam1, {"강남구", "중구", "남구", "서구", "동구", "북구"}) {}
  lemma Chungnam2Led() ensures KoreanLed(Chungnam2) {}
  lemma Chungnam2Avoids() ensures Avoids(Chungnam2, {"강남구", "중구", "남구", "서구", "동구", "북구"}) {}
  lemma Jeonbuk1Led() ensures KoreanLed(Jeonbuk1) {}
  lemma Jeonbuk1Avoids() ensures Avoids(Jeonbuk1, {"강남구", "중구", "남구", "서구", "동구", "북구"}) {}
  lemma Jeonbuk2Led() ensures KoreanLed(Jeonbuk2) {}
  lemma Jeonbuk2Avoids() ensures Avoids(Jeonbuk2, {"강남구", "중구", "남구", "서구", "동구", "북구"}) {}
  lemma Jeonnam1Led() ensures KoreanLed(Jeonnam1) {}
  lemma Jeonnam1Avoids() ensures Avoids(Jeonnam1, {"강남구", "중구", "남구", "서구", "동구", "북구"}) {}
  lemma Jeonnam2Led() ensures KoreanLed(Jeonnam2) {}
  lemma Jeonnam2Avoids() ensures Avoids(Jeonnam2, {"강남구", "중구", "남구", "서구", "동구", "북구"}) {}
  lemma Gyeongbuk1Led() ensures KoreanLed(Gyeongbuk1) {}
  lemma Gyeongbuk1Avoids() ensures Avoids(Gyeongbuk1, {"강남구", "중구", "서구", "동구"}) {}
  lemma Gyeongbuk2Led() ensures KoreanLed(Gyeongbuk2) {}
  lemma Gyeongbuk2Avoids() ensures Avoids(Gyeongbuk2, {"강남구", "중구", "남구", "서구", "동구", "북구"}) {}
  lemma Gyeongbuk3Led() ensures KoreanLed(Gyeongbuk3) {}
  lemma Gyeongbuk3Avoids() ensures Avoids(Gyeongbuk3, {"강남구", "중구", "남구", "서구", "동구", "북구"}) {}
  lemma Gyeongnam1Led() ensures KoreanLed(Gyeongnam1) {}
  lemma Gyeongnam1Avoids() ensures Avoids(Gyeongnam1, {"강남구", "중구", "남구", "서구", "동구", "북구"}) {}
  lemma Gyeongnam2Led() ensures KoreanLed(Gyeongnam2) {}
  lemma Gyeongnam2Avoids() ensures Avoids(Gyeongnam2, {"강남구", "중구", "남구", "서구", "동구", "북구"}) {}
  lemma JejuLed() ensures KoreanLed(Jeju) {}
  lemma JejuAvoids() ensures Avoids(Jeju, {"강남구", "중구", "남구", "서구", "동구", "북구"}) {}

  /** Inside the groups that hold the winning entries, nothing after them rebinds the key. */
  lemma Seoul1GangnamGu()
    ensures Seoul1[3] == ("강남구", "Gangnam-gu,Seoul,KR")
    ensures forall q | 3 < q < |Seoul1| :: Seoul1[q].0 != "강남구"
  {
  }

  lemma DaejeonSeoGu()
    ensures Daejeon[4] == ("서구", "Seo-gu,Daejeon,KR")
    ensures forall q | 4 < q < |Daejeon| :: Daejeon[q].0 != "서구"
  {
  }

  lemma UlsanJungGuDongGu()
    ensures Ulsan[3] == ("동구", "Dong-gu,Ulsan,KR") && Ulsan[5] == ("중구", "Jung-gu,Ulsan,KR")
    ensures forall q | 3 < q < |Ulsan| :: Ulsan[q].0 != "동구"
    ensures forall q | 5 < q < |Ulsan| :: Ulsan[q].0 != "중구"
  {
  }

  lemma Gyeongbuk1NamGuBukGu()
    ensures Gyeongbuk1[1] == ("남구", "Nam-gu,Pohang,KR") && Gyeongbuk1[2] == ("북구", "Buk-gu,Pohang,KR")
    ensures forall q | 1 < q < |Gyeongbuk1| :: Gyeongbuk1[q].0 != "남구"
    ensures forall q | 2 < q < |Gyeongbuk1| :: Gyeongbuk1[q].0 != "북구"
  {
  }

  /** Every key of the table begins with a Hangul syllable. */
  lemma AllKeysKoreanLed()
    ensures forall j | 0 <= j < |Regions| :: KoreanLed(Regions[j])
  {
    Seoul1Led(); Seoul2Led(); Seoul3Led(); Seoul4Led(); Busan1Led();
    Busan2Led(); DaeguLed(); Incheon1Led(); Incheon2Led(); GwangjuLed();
    DaejeonLed(); UlsanLed(); SejongLed(); Gyeonggi1Led(); Gyeonggi2Led();
    Gyeonggi3Led(); Gyeonggi4Led(); Gangwon1Led(); Gangwon2Led(); Chungbuk1Led();
    Chungbuk2Led(); Chungnam1Led(); Chungnam2Led(); Jeonbuk1Led(); Jeonbuk2Led();
    Jeonnam1Led(); Jeonnam2Led(); Gyeongbuk1Led(); Gyeongbuk2Led(); Gyeongbuk3Led();
    Gyeongnam1Led(); Gyeongnam2Led(); JejuLed();
  }

  /** Only the first Seoul group (position 0) carries "강남구". */
  lemma GangnamGuOnlyInSeoul1()
    ensures forall j | 0 < j < |Regions| :: Lacks(Regions[j], "강남구")
  {
    Seoul2Avoids(); Seoul3Avoids(); Seoul4Avoids(); Busan1Avoids(); Busan2Avoids();
    DaeguAvoids(); Incheon1Avoids(); Incheon2Avoids(); GwangjuAvoids(); DaejeonAvoids();
    UlsanAvoids(); SejongAvoids(); Gyeonggi1Avoids(); Gyeonggi2Avoids(); Gyeonggi3Avoids();
    Gyeonggi4Avoids(); Gangwon1Avoids(); Gangwon2Avoids(); Chungbuk1Avoids(); Chungbuk2Avoids();
    Chungnam1Avoids(); Chungnam2Avoids(); Jeonbuk1Avoids(); Jeonbuk2Avoids(); Jeonnam1Avoids();
    Jeonnam2Avoids(); Gyeongbuk1Avoids(); Gyeongbuk2Avoids(); Gyeongbuk3Avoids(); Gyeongnam1Avoids();
    Gyeongnam2Avoids(); JejuAvoids();
  }

  /** No group after Daejeon (position 10) carries "서구". */
  lemma SeoGuNotAfterDaejeon()
    ensures forall j | 10 < j < |Regions| :: Lacks(Regions[j], "서구")
  {
    UlsanAvoids(); SejongAvoids(); Gyeonggi1Avoids(); Gyeonggi2Avoids(); Gyeonggi3Avoids();
    Gyeonggi4Avoids(); Gangwon1Avoids(); Gangwon2Avoids(); Chungbuk1Avoids(); Chungbuk2Avoids();
    Chungnam1Avoids(); Chungnam2Avoids(); Jeonbuk1Avoids(); Jeonbuk2Avoids(); Jeonnam1Avoids();
    Jeonnam2Avoids(); Gyeongbuk1Avoids(); Gyeongbuk2Avoids(); Gyeongbuk3Avoids(); Gyeongnam1Avoids();
    Gyeongnam2Avoids(); JejuAvoids();
  }

  /** No group after Ulsan (position 11) carries "중구" or "동구". */
  lemma JungGuDongGuNotAfterUlsan()
    ensures forall j | 11 < j < |Regions| :: Lacks(Regions[j], "중구") && Lacks(Regions[j], "동구")
  {
    SejongAvoids(); Gyeonggi1Avoids(); Gyeonggi2Avoids(); Gyeonggi3Avoids(); Gyeonggi4Avoids();
    Gangwon1Avoids(); Gangwon2Avoids(); Chungbuk1Avoids(); Chungbuk2Avoids(); Chungnam1Avoids();
    Chungnam2Avoids(); Jeonbuk1Avoids(); Jeonbuk2Avoids(); Jeonnam1Avoids(); Jeonnam2Avoids();
    Gyeongbuk1Avoids(); Gyeongbuk2Avoids(); Gyeongbuk3Avoids(); Gyeongnam1Avoids(); Gyeongnam2Avoids();
    JejuAvoids();
  }

  /** No group after the first Gyeongsangbuk-do group (position 27) carries "남구" or "북구". */
  lemma NamGuBukGuNotAfterPohang()
    ensures forall j | 27 < j < |Regions| :: Lacks(Regions[j], "남구") && Lacks(Regions[j], "북구")
  {
    Gyeongbuk2Avoids(); Gyeongbuk3Avoids(); Gyeongnam1Avoids(); Gyeongnam2Avoids(); JejuAvoids();
  }

  /** The query sent to the provider for a typed city name (app.py:738-741):
      the last value the literal gives the name, or the name itself when no
      entry carries it. Matching is exact: no trimming, no case folding. */
  function Resolve(city: string): (query: string)
    ensures LastBinding(Entries, city) == Some(query)
         || (LastBinding(Entries, city) == None && query == city)
  {
    DictLiteralLastWins(Entries, city);
    if city in Table then Table[city] else city
  }

  /** The label shown while the search runs (app.py:1311-1313): the typed name,
      followed by its provider query in parentheses when the name is a key. */
  function DisplayLabel(city: string): (shown: string)
    ensures LastBinding(Entries, city) == None ==> shown == city
    ensures LastBinding(Entries, city).Some? ==>
      shown == city + " (" + LastBinding(Entries, city).value + ")"
  {
    DictLiteralLastWins(Entries, city);
    if city in Table then city + " (" + Table[city] + ")" else city
  }

  /** The label keeps the typed text exactly when the table has no such key:
      it annotates every key and nothing else. */
  lemma LabelChangesOnlyKeys(city: string)
    ensures LastBinding(Entries, city).Some? <==> DisplayLabel(city) != city
  {
    if LastBinding(Entries, city).Some? {
      assert |DisplayLabel(city)| > |city|;
    }
  }

  /** Every key of the table begins with a Hangul syllable, so text that is
      empty or starts with anything else (Latin letters, digits, a space,
      fullwidth forms, an emoji) is passed through unchanged: "Tokyo",
      "Seoul", " 강남구", "Ｔokyo". */
  lemma NonKoreanPassesThrough(city: string)
    requires city == [] || !IsSyllable(city[0])
    ensures Resolve(city) == city
    ensures DisplayLabel(city) == city
  {
    AllKeysKoreanLed();
    forall j | 0 <= j < |Regions| ensures Lacks(Regions[j], city) {
      assert KoreanLed(Regions[j]);
    }
    UnboundInAllRegions(Regions, city);
  }

  /** "Tokyo" is not a key and reaches the provider as typed. */
  lemma TokyoPassesThrough()
    ensures Resolve("Tokyo") == "Tokyo"
  {
    NonKoreanPassesThrough("Tokyo");
  }

  /** "Ｔokyo", typed with a fullwidth first letter (U+FF34, above the Hangul
      syllables), is not a key either. */
  lemma FullwidthPassesThrough()
    ensures Resolve("\U{FF34}okyo") == "\U{FF34}okyo"
  {
    NonKoreanPassesThrough("\U{FF34}okyo");
  }

  /** "강남구" resolves to its only entry (app.py:384). */
  lemma GangnamGuResolves()
    ensures Resolve("강남구") == "Gangnam-gu,Seoul,KR"
  {
    GangnamGuOnlyInSeoul1();
    Seoul1GangnamGu();
    assert Regions[0] == Seoul1;
    LastInRegion(Regions, 0, 3);
  }

  /** "중구" is bound at app.py:429, 473, 496 and 507; the Ulsan entry, the last, wins. */
  lemma JungGuResolvesToUlsan()
    ensures Resolve("중구") == "Jung-gu,Ulsan,KR"
  {
    JungGuDongGuNotAfterUlsan();
    UlsanJungGuDongGu();
    assert Regions[11] == Ulsan;
    LastInRegion(Regions, 11, 5);
  }

  /** "동구" is bound at app.py:477, 497 and 505; the Ulsan entry, the last, wins. */
  lemma DongGuResolvesToUlsan()
    ensures Resolve("동구") == "Dong-gu,Ulsan,KR"
  {
    JungGuDongGuNotAfterUlsan();
    UlsanJungGuDongGu();
    assert Regions[11] == Ulsan;
    LastInRegion(Regions, 11, 3);
  }

  /** "서구" is bound at app.py:450, 476 and 495; the Daejeon entry, the last, wins. */
  lemma SeoGuResolvesToDaejeon()
    ensures Resolve("서구") == "Seo-gu,Daejeon,KR"
  {
    SeoGuNotAfterDaejeon();
    DaejeonSeoGu();
    assert Regions[10] == Daejeon;
    LastInRegion(Regions, 10, 4);
  }

  /** "남구" is bound at app.py:442, 504 and 673; the Pohang entry, the last, wins. */
  lemma NamGuResolvesToPohang()
    ensures Resolve("남구") == "Nam-gu,Pohang,KR"
  {
    NamGuBukGuNotAfterPohang();
    Gyeongbuk1NamGuBukGu();
    assert Regions[27] == Gyeongbuk1;
    LastInRegion(Regions, 27, 1);
  }

  /** "북구" is bound at app.py:443, 506 and 674; the Pohang entry, the last, wins. */
  lemma BukGuResolvesToPohang()
    ensures Resolve("북구") == "Buk-gu,Pohang,KR"
  {
    NamGuBukGuNotAfterPohang();
    Gyeongbuk1NamGuBukGu();
    assert Regions[27] == Gyeongbuk1;
    LastInRegion(Regions, 27, 2);
  }
}
