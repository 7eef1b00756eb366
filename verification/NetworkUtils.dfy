/** The flat dictionary that carries the weights of both networks, and the pseudo-gradient. */
module NetworkUtils {
  import opened Params

  const ACTOR := "actor."
  const CRITIC := "critic."

  /** What of `dict` lies under a prefix is exactly `part`. */
  ghost predicate Under(dict: Params, prefix: string, part: Params) {
    && (forall k :: k in part <==> prefix + k in dict)
    && (forall k :: k in part ==> part[k] == dict[prefix + k])
  }

  ghost predicate Prefixed(dict: Params) {
    forall n :: n in dict ==> ACTOR <= n || CRITIC <= n
  }

  lemma PrefixesDiffer(x: string, y: string)
    ensures ACTOR + x != CRITIC + y
  {
    assert (ACTOR + x)[0] == 'a' && (CRITIC + y)[0] == 'c';
  }

  lemma SamePrefix(prefix: string, x: string, y: string)
    ensures prefix + x == prefix + y <==> x == y
  {
    assert (prefix + x)[|prefix|..] == x && (prefix + y)[|prefix|..] == y;
  }

  /** Adds all of `part` under a prefix. */
  method AddUnder(dict: Params, prefix: string, part: Params) returns (out: Params)
    requires forall k :: prefix + k !in dict
    ensures Under(out, prefix, part)
    ensures forall n :: n in out && n !in dict ==> prefix <= n
    ensures forall n :: n in dict ==> n in out && out[n] == dict[n]
  {
    out := dict;
    var todo := part.Keys;
    while todo != {}
      invariant todo <= part.Keys
      invariant forall k :: prefix + k in out <==> k in part && k !in todo
      invariant forall k :: k in part && k !in todo ==> out[prefix + k] == part[k]
      invariant forall n :: n in out && n !in dict ==> prefix <= n
      invariant forall n :: n in dict ==> n in out && out[n] == dict[n]
      decreases todo
    {
      var k :| k in todo;
      forall x ensures prefix + x == prefix + k <==> x == k {
        SamePrefix(prefix, x, k);
      }
      out, todo := out[prefix + k := part[k]], todo - {k};
    }
  }

  /** The entries under a prefix, without it. */
  method Strip(dict: Params, prefix: string) returns (part: Params)
    ensures Under(dict, prefix, part)
  {
    part := map[];
    var todo := dict.Keys;
    while todo != {}
      invariant todo <= dict.Keys
      invariant forall k :: k in part <==> prefix + k in dict && prefix + k !in todo
      invariant forall k :: k in part ==> part[k] == dict[prefix + k]
      decreases todo
    {
      var n :| n in todo;
      if prefix <= n {
        var k := n[|prefix|..];
        assert prefix + k == n;
        forall x ensures prefix + x == n <==> x == k {
          SamePrefix(prefix, x, k);
        }
        part := part[k := dict[n]];
      } else {
        forall x ensures prefix + x != n {
          assert (prefix + x)[..|prefix|] == prefix;
        }
      }
      todo := todo - {n};
    }
  }

  lemma Keyed(dict: Params, prefix: string, part: Params)
    requires Under(dict, prefix, part)
    ensures forall k :: k in part ==> prefix + k in dict && dict[prefix + k] == part[k]
    ensures forall n :: n in dict && prefix <= n ==> n[|prefix|..] in part
  {
    forall n | n in dict && prefix <= n ensures n[|prefix|..] in part {
      assert n == prefix + n[|prefix|..];
    }
  }

  method BothUnder(actor: Params, critic: Params) returns (out: Params)
    ensures Under(out, ACTOR, actor) && Under(out, CRITIC, critic) && Prefixed(out)
  {
    out := AddUnder(map[], ACTOR, actor);
    ghost var first := out;
    forall k ensures CRITIC + k !in out {
      if CRITIC + k in out {
        assert ACTOR <= CRITIC + k;
        PrefixesDiffer((CRITIC + k)[|ACTOR|..], k);
      }
    }
    out := AddUnder(out, CRITIC, critic);
    forall k ensures ACTOR + k in out <==> ACTOR + k in first {
      if ACTOR + k in out && ACTOR + k !in first {
        PrefixesDiffer(k, (ACTOR + k)[|CRITIC|..]);
      }
    }
  }

  method SerializeWeights(actor: Params, critic: Params) returns (out: Params)
    ensures forall k :: k in actor ==> "actor." + k in out && out["actor." + k] == actor[k]
    ensures forall k :: k in critic ==> "critic." + k in out && out["critic." + k] == critic[k]
    ensures forall n :: n in out ==> ("actor." <= n && n[6..] in actor) || ("critic." <= n && n[7..] in critic)
    ensures Under(out, ACTOR, actor) && Under(out, CRITIC, critic) && Prefixed(out)
  {
    out := BothUnder(actor, critic);
    Keyed(out, ACTOR, actor);
    Keyed(out, CRITIC, critic);
    hide Under;
  }

  method DeserializeWeights(dict: Params) returns (actor: Params, critic: Params)
    ensures forall k :: k in actor <==> "actor." + k in dict
    ensures forall k :: k in actor ==> actor[k] == dict["actor." + k]
    ensures forall k :: k in critic <==> "critic." + k in dict
    ensures forall k :: k in critic ==> critic[k] == dict["critic." + k]
    ensures Under(dict, ACTOR, actor) && Under(dict, CRITIC, critic)
  {
    actor := Strip(dict, ACTOR);
    critic := Strip(dict, CRITIC);
  }

  /** What lies under a prefix is determined. */
  lemma UnderUnique(dict: Params, prefix: string, a: Params, b: Params)
    requires Under(dict, prefix, a) && Under(dict, prefix, b)
    ensures a == b
  {
  }

  /** The flat dictionary loads back exactly the two it was made of. */
  method RoundTrip(actor: Params, critic: Params) returns (a: Params, c: Params)
    ensures a == actor && c == critic
  {
    var out := SerializeWeights(actor, critic);
    a, c := DeserializeWeights(out);
    UnderUnique(out, ACTOR, a, actor);
    UnderUnique(out, CRITIC, c, critic);
  }

  /** And the two determine the flat dictionary. */
  lemma PartsDetermine(d: Params, e: Params, actor: Params, critic: Params)
    requires Prefixed(d) && Under(d, ACTOR, actor) && Under(d, CRITIC, critic)
    requires Prefixed(e) && Under(e, ACTOR, actor) && Under(e, CRITIC, critic)
    ensures d == e
  {
    forall n | n in d || n in e ensures n in d && n in e && d[n] == e[n] {
      var prefix := if ACTOR <= n then ACTOR else CRITIC;
      assert n == prefix + n[|prefix|..];
    }
  }

  /** local is the flat dictionary of the two networks. */
  ghost predicate IsFlat(local: Params, actor: Params, critic: Params) {
    Prefixed(local) && Under(local, ACTOR, actor) && Under(local, CRITIC, critic)
  }

  lemma FlatUnique(actor: Params, critic: Params, d: Params)
    requires IsFlat(d, actor, critic)
    ensures forall e :: IsFlat(e, actor, critic) ==> e == d
  {
    forall e | IsFlat(e, actor, critic) ensures e == d {
      PartsDetermine(e, d, actor, critic);
    }
  }

  /** name lies in a dictionary of deltas as what was pulled minus what was trained, entry by entry. */
  ghost predicate IsDelta(delta: Params, pulled: Params, name: string, trained: Vec) {
    && name in delta && name in pulled && |delta[name]| == |pulled[name]| == |trained|
    && forall i :: 0 <= i < |trained| ==> delta[name][i] == pulled[name][i] - trained[i]
  }

  /** The comprehension. */
  method Difference(pulled: Params, local: Params) returns (delta: Params)
    requires SameShape(pulled, local)
    ensures delta == Sub(pulled, local)
    ensures forall k :: k in local ==> IsDelta(delta, pulled, k, local[k])
  {
    delta := map k | k in local :: seq(|local[k]|, i => Entry(pulled, k, i) - Entry(local, k, i));
    Extensional(delta, Sub(pulled, local));
  }

  lemma DeltaUnder(delta: Params, pulled: Params, local: Params, prefix: string, part: Params)
    requires Under(local, prefix, part) && forall k :: k in local ==> IsDelta(delta, pulled, k, local[k])
    ensures forall k :: k in part ==> IsDelta(delta, pulled, prefix + k, part[k])
  {
    hide IsDelta;
  }

  /** What was pulled minus what was trained, name by name. */
  method WeightDelta(pulled: Params, actor: Params, critic: Params) returns (delta: Params)
    requires exists local :: IsFlat(local, actor, critic) && SameShape(pulled, local)
    ensures forall k :: k in actor ==> IsDelta(delta, pulled, "actor." + k, actor[k])
    ensures forall k :: k in critic ==> IsDelta(delta, pulled, "critic." + k, critic[k])
    ensures forall local :: IsFlat(local, actor, critic) ==> delta == Sub(pulled, local)
  {
    hide Under, Prefixed, IsDelta, SameShape, Sub;
    var local := SerializeWeights(actor, critic);
    FlatUnique(actor, critic, local);
    delta := Difference(pulled, local);
    DeltaUnder(delta, pulled, local, ACTOR, actor);
    DeltaUnder(delta, pulled, local, CRITIC, critic);
  }
}
