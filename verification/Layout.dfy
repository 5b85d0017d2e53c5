/** Sizes and the disk layout that `mkfs` gives the file system image.

    [ boot | superblock | log header, log blocks | inode blocks | bitmap | data ... ]
 */
module Layout {
  const BSIZE := 512                 // bytes in a block (and in a disk sector)
  const WORDS := 128                 // 32-bit words in a block
  const FSSIZE := 100000             // blocks in the image
  const MAXOPBLOCKS := 40            // blocks one operation may write
  const LOGSIZE := 120               // entries in the in-memory log header
  const NLOG := 120                  // blocks in the on-disk log, header included
  const LOGSTART := 2
  const NINODES := 200
  const IPB := 8                     // inodes in a block
  const INODESTART := 122
  const BMAPSTART := 148
  const BPB := 4096                  // bitmap bits in a block
  const NBITMAP := 25
  const NMETA := 173                 // first data block
  const WORDLIMIT := 0x1_0000_0000

  /** Every block but the log's is a home location. */
  predicate Home(b: int) {
    0 <= b < FSSIZE && !(LOGSTART <= b < LOGSTART + NLOG)
  }

  predicate IsBitmap(b: int) {
    BMAPSTART <= b < BMAPSTART + NBITMAP
  }
}
