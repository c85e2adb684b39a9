/** util/android_version.go: SDK level to Android release name. */
module AndroidVersion {
  import opened Strings

  /** `versionMap`. */
  const VersionMap: map<string, string> := map[
    "10" := "Android 2.3.3 - 2.3.7, Gingerbread, API 10",
    "11" := "Android 3.0, Honeycomb, API 11",
    "12" := "Android 3.1, Honeycomb, API 12",
    "13" := "Android 3.2.x, Honeycomb, API 13",
    "14" := "Android 4.0.3 - 4.0.4, Ice Cream Sandwich, API 14",
    "15" := "Android 4.0.3 - 4.0.4, Ice Cream Sandwich, API 15",
    "16" := "Android 4.1.x, Jelly Bean, API 16",
    "17" := "Android 4.2.x, Jelly Bean, API 17",
    "18" := "Android 4.3.x, Jelly Bean, API 18",
    "19" := "Android 4.4 - 4.4.4, KitKat, API 19",
    "21" := "Android 5.0, Lollipop, API 21",
    "22" := "Android 5.1, Lollipop, API 22",
    "23" := "Android 6.0, Marshmallow, API 23",
    "24" := "Android 7.0, Nougat, API 24",
    "25" := "Android 7.1, Nougat, API 25",
    "26" := "Android 8.0, Oreo, API 26",
    "27" := "Android 8.1, Oreo, API 27",
    "28" := "Android 9.0, Pie, API 28",
    "29" := "Android 10.0, Q, API 29",
    "30" := "Android 11.0, R, API 30",
    "31" := "Android 12.0, S, API 31",
    "32" := "Android 12.1, S, API 32",
    "33" := "Android 13.0, T, API 33",
    "34" := "Android 14.0, U, API 34",
    "35" := "Android 15.0, V, API 35",
    "36" := "Android 16.0, W, API 36"
  ]

  /** `GetVersionBuild`: the table entry, or "" for a key the table lacks. */
  function GetVersionBuild(key: string): (v: string)
    ensures key in VersionMap ==> v == VersionMap[key]
    ensures key !in VersionMap ==> v == ""
    ensures v == "" <==> key !in VersionMap
  {
    if key in VersionMap then VersionMap[key] else ""
  }

  /** The decimal spelling of a two-digit number. */
  function TwoDigits(n: nat): (s: string)
    requires 10 <= n <= 99
  {
    [(n / 10 + 48) as char, (n % 10 + 48) as char]
  }

  /** SDK level 34 is Android 14.0, code letter U. */
  lemma Api34()
    ensures GetVersionBuild("34") == "Android 14.0, U, API 34"
  {
  }

  /** The table covers SDK levels 10 to 36 except 20. */
  lemma TableKeys()
    ensures forall n :: 10 <= n <= 36 ==> (TwoDigits(n) in VersionMap <==> n != 20)
    ensures GetVersionBuild("20") == ""
  {
    forall n | 10 <= n <= 36
      ensures TwoDigits(n) in VersionMap <==> n != 20
    {
      if n < 20 {
        TeenKeys(n);
      } else if n < 30 {
        TwentiesKeys(n);
      } else {
        ThirtiesKeys(n);
      }
    }
  }

  /** Levels 10 to 19 are all listed. */
  lemma TeenKeys(n: nat)
    requires 10 <= n < 20
    ensures TwoDigits(n) in VersionMap
  {
    assert TwoDigits(n) == ['1', (n - 10 + 48) as char];
  }

  /** Levels 21 to 29 are listed, 20 is not. */
  lemma TwentiesKeys(n: nat)
    requires 20 <= n < 30
    ensures TwoDigits(n) in VersionMap <==> n != 20
  {
    assert TwoDigits(n) == ['2', (n - 20 + 48) as char];
  }

  /** Levels 30 to 36 are all listed. */
  lemma ThirtiesKeys(n: nat)
    requires 30 <= n <= 36
    ensures TwoDigits(n) in VersionMap
  {
    assert TwoDigits(n) == ['3', (n - 30 + 48) as char];
  }

  /** The table has no keys besides the listed twenty-six. */
  lemma KeyIsListed(k: string)
    requires k in VersionMap
    ensures || k == "10"
      || k == "11"
      || k == "12"
      || k == "13"
      || k == "14"
      || k == "15"
      || k == "16"
      || k == "17"
      || k == "18"
      || k == "19"
      || k == "21"
      || k == "22"
      || k == "23"
      || k == "24"
      || k == "25"
      || k == "26"
      || k == "27"
      || k == "28"
      || k == "29"
      || k == "30"
      || k == "31"
      || k == "32"
      || k == "33"
      || k == "34"
      || k == "35"
      || k == "36"
  {
  }

  // Every entry ends by naming the API level of its own key; the table is
  // checked a few entries at a time.

  /** Levels 10 to 12. */
  lemma EntriesNameLevels10To12()
    ensures EndsWith(VersionMap["10"], ", API 10")
    ensures EndsWith(VersionMap["11"], ", API 11")
    ensures EndsWith(VersionMap["12"], ", API 12")
  {
  }

  /** Levels 13 to 15. */
  lemma EntriesNameLevels13To15()
    ensures EndsWith(VersionMap["13"], ", API 13")
    ensures EndsWith(VersionMap["14"], ", API 14")
    ensures EndsWith(VersionMap["15"], ", API 15")
  {
  }

  /** Levels 16 to 18. */
  lemma EntriesNameLevels16To18()
    ensures EndsWith(VersionMap["16"], ", API 16")
    ensures EndsWith(VersionMap["17"], ", API 17")
    ensures EndsWith(VersionMap["18"], ", API 18")
  {
  }

  /** Levels 19 to 22. */
  lemma EntriesNameLevels19To22()
    ensures EndsWith(VersionMap["19"], ", API 19")
    ensures EndsWith(VersionMap["21"], ", API 21")
    ensures EndsWith(VersionMap["22"], ", API 22")
  {
  }

  /** Levels 23 to 25. */
  lemma EntriesNameLevels23To25()
    ensures EndsWith(VersionMap["23"], ", API 23")
    ensures EndsWith(VersionMap["24"], ", API 24")
    ensures EndsWith(VersionMap["25"], ", API 25")
  {
  }

  /** Levels 26 to 28. */
  lemma EntriesNameLevels26To28()
    ensures EndsWith(VersionMap["26"], ", API 26")
    ensures EndsWith(VersionMap["27"], ", API 27")
    ensures EndsWith(VersionMap["28"], ", API 28")
  {
  }

  /** Levels 29 to 32. */
  lemma EntriesNameLevels29To32()
    ensures EndsWith(VersionMap["29"], ", API 29")
    ensures EndsWith(VersionMap["30"], ", API 30")
    ensures EndsWith(VersionMap["31"], ", API 31")
    ensures EndsWith(VersionMap["32"], ", API 32")
  {
  }

  /** Levels 33 to 36. */
  lemma EntriesNameLevels33To36()
    ensures EndsWith(VersionMap["33"], ", API 33")
    ensures EndsWith(VersionMap["34"], ", API 34")
    ensures EndsWith(VersionMap["35"], ", API 35")
    ensures EndsWith(VersionMap["36"], ", API 36")
  {
  }
}
