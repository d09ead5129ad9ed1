/** Concrete probe outputs and what the parse rules make of them. */
module ProbeFixtures {
  import opened Wrappers
  import opened Text
  import opened Probes


  /** The tokens a probe parses out of words joined by single spaces are those words. */
  lemma TokensOfJoined(words: seq<string>)
    requires forall i :: 0 <= i < |words| ==> IsToken(words[i])
    ensures Split(Strip(JoinSpaced(words))) == words
  {
    SplitIgnoresStrip(JoinSpaced(words));
    SplitJoinSpaced(words);
  }

  lemma Value512()
    ensures DigitsValue("512") == 512
  {
    assert "5"[..0] == "" && DigitsValue("5") == 5;
    assert "51"[..1] == "5" && DigitsValue("51") == 51;
    assert "512"[..2] == "51";
  }

  lemma Value1024()
    ensures DigitsValue("1024") == 1024
  {
    assert "1"[..0] == "" && DigitsValue("1") == 1;
    assert "10"[..1] == "1" && DigitsValue("10") == 10;
    assert "102"[..2] == "10" && DigitsValue("102") == 102;
    assert "1024"[..3] == "102";
  }

  lemma Parse512()
    ensures ParseInt("512") == Some(512)
  {
    Value512();
    ParseDigits("512");
  }

  lemma Parse1024()
    ensures ParseInt("1024") == Some(1024)
  {
    Value1024();
    ParseDigits("1024");
  }

  /** The memory probe on "512 1024": used 512, total 1024, percentage 512/1024. */
  lemma MemoryFixture(isFloat: string -> bool)
    ensures Parse(Memory, "512 1024", isFloat) ==
      ProbeOut(map["memory_used" := Int(512), "memory_total" := Int(1024), "memory_percent" := Percent(512, 1024)], None)
  {
    assert JoinSpaced(["512", "1024"]) == "512 1024";
    TokensOfJoined(["512", "1024"]);
    Parse512();
    Parse1024();
  }

  lemma PercentRemoved()
    ensures RemoveAll("32%", '%') == "32"
  {
    assert "%"[1..] == "";
    assert RemoveAll("%", '%') == "";
    assert "2%"[1..] == "%";
    assert RemoveAll("2%", '%') == "2";
    assert "32%"[1..] == "2%";
  }

  lemma DiskTokens(isFloat: string -> bool)
    ensures Parse(Disk, "3.2G 10G 32%", isFloat) == ParseDisk(["3.2G", "10G", "32%"], isFloat)
  {
    assert JoinSpaced(["3.2G", "10G", "32%"]) == "3.2G 10G 32%";
    TokensOfJoined(["3.2G", "10G", "32%"]);
  }

  /** The disk probe on "3.2G 10G 32%": the sizes kept as text and the percentage float("32"). */
  lemma DiskFixture(isFloat: string -> bool)
    requires isFloat("32")
    ensures Parse(Disk, "3.2G 10G 32%", isFloat) ==
      ProbeOut(map["disk_used" := Str("3.2G"), "disk_total" := Str("10G"), "disk_percent" := Float("32")], None)
  {
    DiskTokens(isFloat);
    PercentRemoved();
  }

  /** The network probe on two tokens raises: the battery stops, it does not just omit the fields. */
  lemma NetworkTooFewTokens(isFloat: string -> bool)
    ensures Parse(Network, "eth0: 1024", isFloat) == ProbeOut(map[], Some(TooFewValues(3, 2)))
  {
    assert JoinSpaced(["eth0:", "1024"]) == "eth0: 1024";
    TokensOfJoined(["eth0:", "1024"]);
  }
}
