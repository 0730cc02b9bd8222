/** One plane a conversation, over one shared store and one shared book
    (examples/banking/tools.py). */
module Scopes {
  import opened Actions
  import opened Bank
  import opened Plane
  import opened Control
  import Pg = PgBank

  class Scopes {
    const template: ControlPlane
    var planes: map<Principal, ControlPlane>
    ghost var banks: set<Pg.PgBank>

    /** Every scope is over the template's store, book, secret and opening position, and no
        two share a bank. */
    ghost predicate Valid()
      reads this
    {
      && (forall p | p in planes ::
            && planes[p].store == template.store && planes[p].bank.book == template.bank.book
            && planes[p].Cfg() == template.Cfg()
            && planes[p].bank != template.bank && planes[p].bank in banks)
      && (forall p, q | p in planes && q in planes && p != q :: planes[p].bank != planes[q].bank)
    }

    constructor (template: ControlPlane)
      ensures this.template == template && planes == map[] && banks == {} && Valid()
      ensures Memories() == map[]
    {
      this.template := template;
      this.planes := map[];
      this.banks := {};
    }

    /** What each conversation's bank holds. */
    ghost function Memories(): map<Principal, BankMemory>
      requires Valid()
      reads this, banks
    {
      map p | p in planes :: planes[p].bank.Memory()
    }

    twostate lemma OneMemoryChanged(p: Principal)
      requires old(Valid()) && Valid() && planes == old(planes) && p in planes
      requires forall q | q in planes && q != p :: unchanged(planes[q].bank)
      ensures Memories() == old(Memories())[p := planes[p].bank.Memory()]
    {
    }

    /** A scope's own bank is built from the template's opening position. */
    method Open(key: Principal) returns (plane: ControlPlane)
      requires Valid() && key !in planes
      modifies this
      ensures Valid() && planes == old(planes)[key := plane] && banks == old(banks) + {plane.bank}
      ensures fresh(plane) && fresh(plane.bank) && plane.bank.Memory() == OpeningMemory(template.Cfg())
    {
      var bank := template.bank.Fresh();
      plane := new ControlPlane(bank, template.store, template.secret);
      planes := planes[key := plane];
      banks := banks + {bank};
    }

    /** The conversation's own plane: always the same one, and at the opening balances the
        first time, whatever any other conversation has paid. */
    method PlaneFor(ctx: Context) returns (plane: ControlPlane)
      requires Valid()
      modifies this
      ensures Valid() && PrincipalOf(ctx) in planes && planes[PrincipalOf(ctx)] == plane
      ensures planes == old(planes)[PrincipalOf(ctx) := plane]
      ensures PrincipalOf(ctx) !in old(planes) ==> fresh(plane) && fresh(plane.bank)
      ensures Memories() == old(Memories())[PrincipalOf(ctx) := plane.bank.Memory()]
      ensures plane.bank.Memory() == if PrincipalOf(ctx) in old(Memories()) then old(Memories())[PrincipalOf(ctx)]
                                     else OpeningMemory(template.Cfg())
      ensures fresh(banks - old(banks))
    {
      hide PrincipalOf, ControlPlane.Cfg, OpeningMemory;
      var key := PrincipalOf(ctx);
      if key in planes {
        plane := planes[key];
      } else {
        plane := Open(key);
      }
      assert Memories() == old(Memories())[key := plane.bank.Memory()];
    }
  }
}
