/** The block window of a pass, in 64-bit arithmetic. */
module Window {
  import opened Util

  const TWO64: nat := 0x1_0000_0000_0000_0000

  type u64 = n: nat | n < 0x1_0000_0000_0000_0000

  /** What scrape_blocks passes to blaze, if it launches it. `fallback` is the configured block count for
      the 2016 attack range, in which `ddos` says the start lies. */
  method PlanBlaze(ripe: u64, staging: u64, finalized: u64, client: u64, nBlocks: u64, docker: bool, ddos: bool,
                   fallback: u64) returns (launch: bool, start: u64, wanted: u64, cnt: u64, ripeBlock: u64)
    ensures start == (Max(ripe, Max(staging, finalized)) + 1) % TWO64
    ensures wanted == if docker then nBlocks
                      else if start < 450000 then Max(4000, nBlocks)
                      else if ddos then fallback
                      else nBlocks
    ensures launch <==> start <= client
    ensures launch && start + wanted <= client ==> cnt == wanted
    ensures launch ==> (start + cnt <= client <==> start + wanted < TWO64)
    ensures launch && client < start + wanted < TWO64 ==> start + cnt == client
    ensures ripeBlock <= client && (client >= 28 ==> ripeBlock == client - 28) && (client < 28 ==> ripeBlock == 0)
  {
    start := (Max(ripe, Max(staging, finalized)) + 1) % TWO64;
    wanted := nBlocks;
    if !docker {
      if start < 450000 {
        wanted := Max(4000, wanted);
      } else if ddos {
        wanted := fallback;
      }
    }
    cnt := wanted;
    ripeBlock := if client < 28 then 0 else client - 28;
    if (start + cnt) % TWO64 > client {
      cnt := (client + TWO64 - start) % TWO64;
    }
    launch := start <= client;
  }

  /** On any chain, from any start but 0 that is launched, there is a block count with which the range handed to
      blaze runs past the head: one a user can give. */
  method WrapEscapes(ripe: u64, staging: u64, finalized: u64, client: u64) returns (nBlocks: u64, start: u64, cnt: u64)
    requires Max(ripe, Max(staging, finalized)) < client
    ensures start <= client && client < start + cnt
  {
    nBlocks := TWO64 - (Max(ripe, Max(staging, finalized)) + 1);
    var launch, wanted, ripeBlock;
    launch, start, wanted, cnt, ripeBlock := PlanBlaze(ripe, staging, finalized, client, nBlocks, true, false, 0);
  }
}
