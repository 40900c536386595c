# Post store of the posts CRUD client

This project models the client-side post store of a small CRUD front end for a
demo REST API. The store is a Redux Toolkit slice holding:

- `posts`, an ordered list of posts (`id`, `title`, `body`, `userId`);
- `status`, the fetch lifecycle: `idle`, `loading`, `succeeded` or `failed`;
- `error`, an optional message.

Six case reducers change it:

- `addNewPost` prepends a post.
- `updatePost` rewrites the title and body of the first post with the payload's id.
- `fetchPosts.pending` sets the status to `loading`.
- `fetchPosts.fulfilled` replaces the list with the fetched one and sets `succeeded`.
- `fetchPosts.rejected` sets `failed` and records the error message.
- `deletePost.fulfilled` drops every post with the deleted id.

All of it lives in module `PostSlice` (`post_slice.dfy`), in two forms:

- `Reducer` is the slice reducer as a value-level function, from a state and an
  action to a new state. `Run` folds it over a sequence of actions.
- `PostStore` is a class whose fields are `posts`, `status` and `error`. It
  has one method per case reducer, and each method updates its fields in place,
  as the case reducers do on their draft state. Every method states its new
  fields outright and is proved equal to one `Reducer` step.

Three pure functions model the expressions used inside the reducers:

- `FindFirst` models `find`.
- `WithoutId` models `filter`.
- `RejectionError` models `message || null`.

Lemmas state what the operations promise. Updates are targeted at the first
match, and a miss changes nothing. Deletion keeps order and is idempotent.
Unique ids are preserved whenever an added post brings a fresh id and a
fetched list has unique ids. Once the status has left `idle`, it never returns.

Two properties one might expect of the store do not hold of the code:

- `addNewPost` does not check ids. A post whose id is already present is added
  a second time (`AddNewDuplicatesPresentId`, `AddNewAllowsDuplicateIds`). Unique
  ids are only kept under the caller's promise of a fresh id and a fetched list
  with unique ids (`ReducerKeepsUnique`).
- `error` is never cleared by `pending` or `fulfilled`. After a failed fetch
  followed by a successful one, the status is `succeeded` while the old message
  is still held (`ErrorOutlivesFailure`). So "error is set only while failed"
  is not a property of the code.

## Model

| member | source | states |
|---|---|---|
| `PostSlice.PostStore.constructor` | src/features/posts/postSlice.ts:18-22 | a new store has no posts, status idle and no error, which is `InitialState` |
| `PostSlice.PostStore.AddNewPost` | src/features/posts/postSlice.ts:41-43 | posts become `[post] + old posts`, so the length grows by one; status and error are unchanged; agrees with the reducer |
| `PostSlice.PostStore.UpdatePost` | src/features/posts/postSlice.ts:45-52 | without a post of the payload's id nothing changes; otherwise the first such entry gets the payload's title and body and keeps its id and userId; status and error are unchanged |
| `PostSlice.PostStore.FetchPostsPending` | src/features/posts/postSlice.ts:56-58 | status becomes loading; posts and error are unchanged |
| `PostSlice.PostStore.FetchPostsFulfilled` | src/features/posts/postSlice.ts:59-62 | posts equal the fetched list exactly, whatever was there before; status becomes succeeded; error is unchanged |
| `PostSlice.PostStore.FetchPostsRejected` | src/features/posts/postSlice.ts:63-66 | status becomes failed; error becomes the message, or null when it is absent or empty; posts are unchanged |
| `PostSlice.PostStore.DeletePostFulfilled` | src/features/posts/postSlice.ts:67-69 | posts become the old ones without the given id, and afterwards no post has that id; status and error are unchanged |
| `PostSlice.FindFirst` | src/features/posts/postSlice.ts:47 | returns the index of the first post with the id, or none exactly when no post has it |
| `PostSlice.WithoutId` | src/features/posts/postSlice.ts:68 | a post is in the result if and only if it was in the list and its id differs from the given one; the result is no longer than the input |
| `PostSlice.RejectionError` | src/features/posts/postSlice.ts:65 | the recorded error is the message when present and non-empty, and null otherwise; it is never the empty string |
| `PostSlice.UpdatedPosts` | src/features/posts/postSlice.ts:46-51 | the length and every entry's id and userId are kept; without a post of the payload's id the list is unchanged; when `i` is the first position with that id, entry `i` gets the payload's title and body and every other entry is unchanged |
| `PostSlice.Reducer` | src/features/posts/postSlice.ts:36-71 | no action sets the status to idle; only a rejected fetch changes the error; only fetch actions change the status |
| `PostSlice.UpdateHitsFirstMatch` | src/features/posts/postSlice.ts:46-51 | when `i` is the first position with the payload's id, entry `i` gets the payload's title and body and keeps its own id and userId (the payload's userId is ignored); every other entry, the length, the status and the error are unchanged |
| `PostSlice.UpdateMissIsNoOp` | src/features/posts/postSlice.ts:47-48 | an update whose id no post has leaves the whole state unchanged |
| `PostSlice.UpdateKeepsIds` | src/features/posts/postSlice.ts:46-51 | an update keeps the length and every entry's id and userId in place |
| `PostSlice.UpdateIdempotent` | src/features/posts/postSlice.ts:45-52 | applying the same update twice equals applying it once |
| `PostSlice.WithoutIdAppend` | src/features/posts/postSlice.ts:68 | filtering a concatenation is the concatenation of the filtered parts, so kept posts keep their relative order |
| `PostSlice.WithoutAbsentId` | src/features/posts/postSlice.ts:68 | deleting an id that no post has leaves the list as it is |
| `PostSlice.DeleteIdempotent` | src/features/posts/postSlice.ts:67-69 | applying a delete twice equals applying it once |
| `PostSlice.WithoutIdKeepsOrder` | src/features/posts/postSlice.ts:68 | the result is a subsequence of the old list; it holds each post with another id exactly as often as before, and no post with the deleted id |
| `PostSlice.WithoutIdKeepsUnique` | src/features/posts/postSlice.ts:68 | filtering a list with unique ids gives a list with unique ids |
| `PostSlice.ReducerKeepsUnique` | src/features/posts/postSlice.ts:39-70 | every action keeps ids unique when an added post has a fresh id and a fetched list has unique ids |
| `PostSlice.NeverBackToIdle` | src/features/posts/postSlice.ts:54-70 | once the status is not idle, no sequence of actions makes it idle again |
| `PostSlice.AddNewAllowsDuplicateIds` | src/features/posts/postSlice.ts:41-43 | adding the same post twice to an empty store leaves two posts with one id |
| `PostSlice.AddNewDuplicatesPresentId` | src/features/posts/postSlice.ts:41-43 | from any state that already holds a post with the added post's id, ids are no longer unique afterwards |
| `PostSlice.ErrorOutlivesFailure` | src/features/posts/postSlice.ts:56-66 | pending, rejected, pending and fulfilled in that order end with status succeeded and the rejection's message still held |

## Left out

- The HTTP calls inside `fetchPosts` and `deletePost` (src/features/posts/postSlice.ts:25-33) are network I/O. The model takes their resolved results as parameters: the fetched list, the deleted id, and the optional error message.
- The Redux Toolkit machinery is library code. This covers `createSlice`, `createAsyncThunk`, action objects and Immer drafts. Each case is modelled as a direct state update.
- Actions the slice does not handle leave the state unchanged in Redux. This covers `deletePost.pending` and `deletePost.rejected`. The `Action` type has no constructor for them.
- Interleaving of in-flight requests with local updates is scheduling. It is not modelled.
- Post ids are JavaScript numbers in the source but integers here. Strict equality on non-integral or NaN ids is not modelled.
- The React components are presentation only. This covers src/features/posts/postLists.tsx, src/features/posts/PostForm.tsx and src/App.tsx. Their effects are caller behaviour: fetching only while the status is idle, the `Date.now()` temporary id, and the snackbars. None of them is part of this model.
