/** Which configuration's rule applies to a tenant and model, told by the positions of the configurations. */
module LimitRules {
  import opened Common
  import opened Limits

  /** An enabled configuration for exactly this pair stands here. */
  predicate StandsAt(configs: seq<Config>, i: int, tenant: string, model: string) {
    0 <= i < |configs| && configs[i].enabled && configs[i].tenant == tenant && configs[i].model == model
  }

  /** It is the first one. */
  ghost predicate FirstAt(configs: seq<Config>, i: int, tenant: string, model: string) {
    StandsAt(configs, i, tenant, model) && forall j :: 0 <= j < i ==> !StandsAt(configs, j, tenant, model)
  }

  ghost predicate NoneFor(configs: seq<Config>, tenant: string, model: string) {
    forall i :: !StandsAt(configs, i, tenant, model)
  }

  lemma {:induction false} MatchIsFirst(configs: seq<Config>, tenant: string, model: string)
    ensures Match(configs, tenant, model) == None <==> NoneFor(configs, tenant, model)
    ensures forall i :: FirstAt(configs, i, tenant, model) ==> Match(configs, tenant, model) == Some(configs[i].rule)
  {
    if configs != [] {
      var rest := configs[1..];
      MatchIsFirst(rest, tenant, model);
      assert forall i :: StandsAt(rest, i - 1, tenant, model) <==> 0 < i && StandsAt(configs, i, tenant, model);
      if NoneFor(configs, tenant, model) {
        forall i ensures !StandsAt(rest, i, tenant, model) {
          assert !StandsAt(configs, i + 1, tenant, model);
        }
      }
      if NoneFor(rest, tenant, model) && !StandsAt(configs, 0, tenant, model) {
        forall i ensures !StandsAt(configs, i, tenant, model) {
          assert !StandsAt(rest, i - 1, tenant, model);
        }
      }
      forall i | FirstAt(configs, i, tenant, model) ensures Match(configs, tenant, model) == Some(configs[i].rule) {
        if i > 0 {
          assert !StandsAt(configs, 0, tenant, model);
          assert FirstAt(rest, i - 1, tenant, model) by {
            assert forall j :: 0 <= j < i - 1 && StandsAt(rest, j, tenant, model) ==>
                       StandsAt(configs, j + 1, tenant, model);
          }
        }
      }
    }
  }

  /**
    * The first enabled configuration for the tenant and model decides; without one, the first enabled for the
    * tenant alone; without that, the first enabled global one; without any, the default.
    */
  lemma ResolvedByPosition(configs: seq<Config>, standard: Rule, tenant: string, model: string, i: int)
    ensures FirstAt(configs, i, tenant, model) ==> Resolve(configs, standard, tenant, model) == configs[i].rule
    ensures NoneFor(configs, tenant, model) && FirstAt(configs, i, tenant, "") ==>
              Resolve(configs, standard, tenant, model) == configs[i].rule
    ensures NoneFor(configs, tenant, model) && NoneFor(configs, tenant, "") && FirstAt(configs, i, "", "") ==>
              Resolve(configs, standard, tenant, model) == configs[i].rule
    ensures NoneFor(configs, tenant, model) && NoneFor(configs, tenant, "") && NoneFor(configs, "", "") ==>
              Resolve(configs, standard, tenant, model) == standard
  {
    hide Match, FirstAt, NoneFor;
    MatchIsFirst(configs, tenant, model);
    MatchIsFirst(configs, tenant, "");
    MatchIsFirst(configs, "", "");
  }

  /** There always is a first one, so that one of these cases applies. */
  lemma {:induction false} FirstOrNone(configs: seq<Config>, tenant: string, model: string) returns (i: int)
    ensures FirstAt(configs, i, tenant, model) || NoneFor(configs, tenant, model)
  {
    i := 0;
    while i < |configs| && !StandsAt(configs, i, tenant, model)
      invariant 0 <= i <= |configs| && forall j :: 0 <= j < i ==> !StandsAt(configs, j, tenant, model)
    {
      i := i + 1;
    }
  }

  function Without(configs: seq<Config>, i: nat): seq<Config>
    requires i < |configs|
  {
    configs[..i] + configs[i + 1..]
  }

  lemma {:induction false} MatchWithout(configs: seq<Config>, i: nat, tenant: string, model: string)
    requires i < |configs| && !StandsAt(configs, i, tenant, model)
    ensures Match(Without(configs, i), tenant, model) == Match(configs, tenant, model)
  {
    if i > 0 {
      MatchWithout(configs[1..], i - 1, tenant, model);
      assert Without(configs, i)[1..] == Without(configs[1..], i - 1);
    } else {
      assert Without(configs, 0) == configs[1..];
    }
  }

  /** A disabled configuration never matters, nor does one for another tenant or another model. */
  lemma OthersDoNotMatter(configs: seq<Config>, standard: Rule, i: nat, tenant: string, model: string)
    requires i < |configs|
    requires var c := configs[i];
             !c.enabled || (c.tenant != "" && c.tenant != tenant) || (c.model != "" && c.model != model)
             || (c.tenant == "" && c.model != "" && tenant != "")
    ensures Resolve(Without(configs, i), standard, tenant, model) == Resolve(configs, standard, tenant, model)
  {
    hide Match, Without;
    MatchWithout(configs, i, tenant, model);
    MatchWithout(configs, i, tenant, "");
    MatchWithout(configs, i, "", "");
  }
}
